# SkillSwap core in Dafny

SkillSwap is a student skill-exchange app: a Spring backend and two front ends (web and mobile).
This project models the parts of it that decide who meets whom and what each screen does with the
data it fetched:

- the backend's recommendation engine (`MatchingService`);
- the swipe endpoint with its auto-match rule and the match lookup it relies on;
- the message and user-skill endpoints;
- the upload naming rule;
- the geocoding helpers (query variants, result scoring, "City, ST" suggestions);
- the web discovery feed and the two swipe cards;
- the matches and messages pages;
- both sessions (`AuthContext`);
- registration and sign-in;
- the profile editor's logic.

Every answer of the network (a table, a list of geocoding results, whether a request succeeded) is
an argument. The great-circle distance is a function parameter.

Each file is one module:

- `wrappers.dfy`: `Option` and `Result`.
- `text.dfy`: the Java and JavaScript string operations used.
- `js.dfy`: JavaScript values, with `undefined` and `null` kept apart, truthiness and `||`.
- `sequences.dfy`: filter, dedup, subsequence and first-match lemmas.
- `sorting.dfy`: a stable sort by key.
- `entities.dfy`: the backend's rows.
- `repositories.dfy`: the repository queries over sequences.
- `matching.dfy`, `swipes.dfy`, `messaging.dfy`, `user_skills.dfy`, `file_storage.dfy` and `geolocation.dfy`: the backend.
- `discover.dfy`, `discover_card.dfy`, `conversations.dfy`, `session.dfy`, `accounts.dfy` and `profile_editor.dfy`: the front ends.
- `message_wire.dfy`: how the backend binds the body the web messages page posts.

Where the source loops or updates state, the model is a method with loop invariants or a class whose
methods update its fields. Each such method is proved against a specification function, and the lemmas
beside it prove what the source promises about that function.

## Model

| member | source | states |
|---|---|---|
| Matching.RecommendMatches | src/main/java/com/example/skillswap/service/MatchingService.java:55-97 | The loop over all users (skipping id-less and excluded ones, keeping positive scores) followed by the sort and the limit computes exactly `Recommend`, the specification the lemmas below are about |
| Matching.UnknownUserRejected | src/main/java/com/example/skillswap/service/MatchingService.java:56-57 | An unknown requester id fails with `UserNotFound(id)` |
| Matching.RecommendSpec | src/main/java/com/example/skillswap/service/MatchingService.java:72-96 | A successful result never names the requester, a user the requester swiped or a user matched with the requester (either column); every score is positive; scores never increase; the length is min(qualifying, clamped limit); no qualifying user left out scores above one listed |
| Matching.RankedProperties | src/main/java/com/example/skillswap/service/MatchingService.java:93-96 | Sorting by descending score and truncating gives a non-increasing list of min(n, clamp) of the inputs, none beaten by an input left out |
| Matching.Clamp | src/main/java/com/example/skillswap/service/MatchingService.java:95 | The effective limit lies in 1..50 and equals the requested limit when that is already in range |
| Matching.CollectMembers | src/main/java/com/example/skillswap/service/MatchingService.java:75-91 | Every collected recommendation belongs to a non-excluded listed user, is the recommendation built for that user, and has a positive score |
| Matching.CollectIsFlatten | src/main/java/com/example/skillswap/service/MatchingService.java:75-91 | The collection is what each user contributes (nothing, or the one recommendation), concatenated in table order |
| Matching.CollectComplete | src/main/java/com/example/skillswap/service/MatchingService.java:75-91 | Conversely, the recommendation of every listed user with an id who is not excluded and scores positively is collected |
| Matching.RecommendComplete | src/main/java/com/example/skillswap/service/MatchingService.java:75-96 | A qualifying user (listed, not excluded, positive score) is in the result, or the result is full (clamped limit) and every entry scores at least as much |
| Matching.RankedFull | src/main/java/com/example/skillswap/service/MatchingService.java:93-96 | A collected recommendation missing from the ranked list means the list has the clamped limit's length |
| Matching.BuildExcludedUserIds | src/main/java/com/example/skillswap/service/MatchingService.java:99-121 | x is excluded iff x is the requester, a swipee of the requester, or the other side of a match with the requester in either column |
| Matching.InterestKeys | src/main/java/com/example/skillswap/service/MatchingService.java:198-202 | A key is present iff it is the lower-cased form of some non-blank interest name of the list |
| Matching.NonBlankNames | src/main/java/com/example/skillswap/service/MatchingService.java:204-206 | A name is listed iff some interest of the list carries it and it is not blank |
| Matching.SharedInterests | src/main/java/com/example/skillswap/service/MatchingService.java:193-210 | The requester's non-blank interest names whose lower-case form is among the candidate's lower-cased names, each at most once, in the requester's order (a subsequence of the requester's names) |
| Matching.BuildSkillMap | src/main/java/com/example/skillswap/service/MatchingService.java:237-249 | The loop collects exactly the lower-cased non-blank names of the skills flagged offering (or seeking) |
| Matching.ComputeComplementarySkills | src/main/java/com/example/skillswap/service/MatchingService.java:212-235 | The loop over the candidate's skills collects exactly `ComplementarySkills` |
| Matching.ComplementarySkills | src/main/java/com/example/skillswap/service/MatchingService.java:222-234 | The set holds one entry per skill the candidate offers and the requester seeks plus one per skill the candidate seeks and the requester offers: no two entries collide |
| Matching.ComplementarySkillsIff | src/main/java/com/example/skillswap/service/MatchingService.java:212-235 | "x (they offer)" is listed iff the candidate offers x and the requester seeks x; "x (they need)" iff the candidate seeks x and the requester offers x |
| Matching.Coordinates | src/main/java/com/example/skillswap/service/MatchingService.java:260-270 | The profile's coordinates when the profile shows them and has both; otherwise the user's when the user shows them and has both; otherwise none |
| Matching.ResolveDistance | src/main/java/com/example/skillswap/service/MatchingService.java:251-258 | A distance exists iff both sides resolve coordinates, and it is then the distance between the two resolved points, the profile's taking precedence over the user's |
| Matching.Score | src/main/java/com/example/skillswap/service/MatchingService.java:137-170 | The score is never negative, and it is positive iff some interest or skill is shared or complementary, the university, major or year agrees, or a distance under 125 km is known |
| Matching.ReasonsOf | src/main/java/com/example/skillswap/service/MatchingService.java:138-170 | At most six reasons, in the service's fixed order: interests, skills, university, major, year, distance |
| Matching.FullName | src/main/java/com/example/skillswap/service/MatchingService.java:178-180 | First and last name (a missing one as "") joined by a space and trimmed: empty iff both are blank up to U+0020; both names with one space when both are present, non-empty and already trimmed; the present name alone when the other is missing |
| Matching.BuildRecommendation | src/main/java/com/example/skillswap/service/MatchingService.java:123-191 | The accumulation of score and reasons yields exactly `RecommendationFor` |
| Matching.AddReason | src/main/java/com/example/skillswap/service/MatchingService.java:140-170 | One guarded step adds the reason and its weight exactly when its condition holds |
| Matching.Accumulate | src/main/java/com/example/skillswap/service/MatchingService.java:137-170 | The five steps in order produce `ReasonsOf` and `Score` |
| Matching.TotalWeightAppendIf | src/main/java/com/example/skillswap/service/MatchingService.java:140-170 | Appending a reason under a condition adds its weight under the same condition |
| Matching.ScoreIsWeightOfReasons | src/main/java/com/example/skillswap/service/MatchingService.java:137-170 | The score is the sum of the listed reasons' weights: 8 per shared interest, 15 per complementary skill, 5 university, 5 major, 3 year, max(0, 25 - d/5) nearby |
| Matching.RecommendationForFacts | src/main/java/com/example/skillswap/service/MatchingService.java:172-190 | No recommendation iff the score is not positive; otherwise it carries the candidate's id and a positive score equal to the total weight of its reasons |
| Matching.ReasonsListed | src/main/java/com/example/skillswap/service/MatchingService.java:140-170 | Each reason is listed iff its fact holds (non-empty interests or skills, same university, major, year, a known distance) |
| Matching.SkillCountsInScore | src/main/java/com/example/skillswap/service/MatchingService.java:145-147 | The score is at least 15 per complementary skill |
| Matching.OfferedSkillRecommended | src/main/java/com/example/skillswap/service/MatchingService.java:212-235 | A skill the candidate offers and the requester seeks makes the candidate recommended with "x (they offer)" and a score of at least 15 |
| Matching.ScoreAboveTwenty | src/main/java/com/example/skillswap/service/MatchingService.java:145-162 | Same university, major and year plus one complementary skill score above 20 |
| Matching.BobRecommended | src/test/java/com/example/skillswap/service/MatchingServiceTest.java:51-66 | For the seeded pair, Bob is recommended to Alice with "product design (they offer)" and a score above 20 |
| Matching.AliceGetsBob | src/test/java/com/example/skillswap/service/MatchingServiceTest.java:69-82 | The test's scenario: Alice's recommendations (limit 5) are non-empty and the first lists "product design (they offer)" with a score above 20 |
| Repositories.SingleResult | src/main/java/com/example/skillswap/repository/SwipeRepository.java:10 | A query returning one optional row gives none for no rows, the row for one row, and fails for more |
| Repositories.FindExistingMatchSymmetric | src/main/java/com/example/skillswap/repository/MatchRepository.java:11-14 | `findExistingMatch(a, b)` and `findExistingMatch(b, a)` give the same answer |
| Repositories.FindExistingMatchExact | src/main/java/com/example/skillswap/repository/MatchRepository.java:11-14 | With at most one match per pair, the lookup finds the match stored as (u1, u2) or as (u2, u1), and none when no match joins them |
| Repositories.SwipesBySwiper | src/main/java/com/example/skillswap/repository/SwipeRepository.java:9 | Exactly the swipes whose swiper is the id, each as many times as it occurs in the table (multiset counts), in table order (a subsequence) |
| Repositories.SwipesFromTo | src/main/java/com/example/skillswap/repository/SwipeRepository.java:10 | Exactly the swipes from a to b |
| Repositories.SwipesFromToCounts | src/main/java/com/example/skillswap/repository/SwipeRepository.java:10 | The swipes from a to b, each as many times as it occurs in the table, and no other row |
| Repositories.FindSwipe | src/main/java/com/example/skillswap/repository/SwipeRepository.java:10 | `Optional<Swipe>` lookup: empty iff no swipe goes from a to b; a found row is a swipe from a to b; an error (non-unique result) iff two rows go from a to b |
| Repositories.FindExistingMatch | src/main/java/com/example/skillswap/repository/MatchRepository.java:11-14 | Empty iff no match joins u1 and u2 in either column order; a found match is in the table and joins them; an error (non-unique result) iff two matches join them |
| SwipeLedger.Ledger.AddSwipe | src/main/java/com/example/skillswap/controller/SwipeController.java:33-64 | The call's result and both tables are those of `AddSwipeOutcome`; the users are unchanged and the match id advances only when a match was added |
| SwipeLedger.Ledger.GetSwipesByUser | src/main/java/com/example/skillswap/controller/SwipeController.java:67-70 | Returns `SwipesBySwiper` of the table: exactly the swipes made by the user, each as many times as it is stored, in table order |
| SwipeLedger.UnknownUserChangesNothing | src/main/java/com/example/skillswap/controller/SwipeController.java:35-38 | A missing or unknown swiper or swipee fails with neither table changed, and only then |
| SwipeLedger.SwipeAlwaysSaved | src/main/java/com/example/skillswap/controller/SwipeController.java:40-63 | With both users known, the swipe is appended whatever follows, and a success returns it |
| SwipeLedger.PassNeverMatches | src/main/java/com/example/skillswap/controller/SwipeController.java:43 | A swipe that is not a like never changes the match table |
| SwipeLedger.MatchCreatedIff | src/main/java/com/example/skillswap/controller/SwipeController.java:43-60 | With at most one earlier reverse swipe, a match is created iff this is a like, the reverse swipe is a like and no match joins the pair either way; it is (swiper, swipee) and the only change |
| SwipeLedger.SelfLikeMatchesSelf | src/main/java/com/example/skillswap/controller/SwipeController.java:40-57 | A first like of oneself finds itself as the reverse swipe and matches the user with themselves |
| SwipeLedger.AddSwipePreservesOneMatchPerPair | src/main/java/com/example/skillswap/controller/SwipeController.java:49-58 | The endpoint keeps "at most one match per unordered pair" |
| SwipeLedger.RepeatedReverseLikeBlocksMatch | src/main/java/com/example/skillswap/controller/SwipeController.java:44-47 | As written: after two likes from 2 to 1, a like from 1 to 2 is saved and then fails, and no match is made |
| SwipeLedger.IntendedAutoMatchSpec | src/main/java/com/example/skillswap/controller/SwipeController.java:43-60 | The corrected decision never fails under the invariant, matches exactly when some earlier reverse like exists and the pair is unmatched, and keeps the invariant |
| Messaging.Sent | src/main/java/com/example/skillswap/controller/MessageController.java:32-39 | Saved iff the match and the sender exist and the NOT NULL content is present; "Match not found" and "Sender user not found" iff those lookups fail; participation in the match is not checked; the saved row carries the given fields, unread and stamped now by default |
| Messaging.IndexOf | src/main/java/com/example/skillswap/controller/MessageController.java:44-45 | The position of the message with that id (the last one, so the only one when ids are unique), or none iff no message has it |
| Messaging.MessageBoard.GetMessagesByMatch | src/main/java/com/example/skillswap/controller/MessageController.java:26-28 | Exactly the match's messages, a permutation of them sorted by ascending send time |
| Messaging.MessageBoard.SendMessage | src/main/java/com/example/skillswap/controller/MessageController.java:32-39 | The result is `Sent`; on success the message is appended, on failure nothing changes |
| Messaging.MessageBoard.MarkAsRead | src/main/java/com/example/skillswap/controller/MessageController.java:43-48 | An unknown id fails with "Message not found"; otherwise that message, flagged read, is returned and stored |
| Messaging.MarkedReadSpec | src/main/java/com/example/skillswap/controller/MessageController.java:43-48 | Only the named message's flag becomes true, no other field changes, ids stay unique, and repeating it changes nothing |
| MessageWire.BoundId | src/main/java/com/example/skillswap/model/Message.java:15-21 | A posted id binds to a number iff it is one |
| MessageWire.BoundAsWritten | frontend-web/src/pages/Messages.js:73-77 | The posted body binds to a message without content: `content` is not a property of the message |
| MessageWire.BoundAsIntended | src/main/java/com/example/skillswap/model/Message.java:23-24 | The body with the text under `messageContent` binds it as the content |
| MessageWire.WebSendRefused | frontend-web/src/pages/Messages.js:73-77 | As written, a web message into an existing match by an existing sender is refused for missing content |
| MessageWire.IntendedWebSendStored | src/main/java/com/example/skillswap/controller/MessageController.java:32-39 | With the corrected body, the send succeeds iff the match and sender exist, storing exactly the typed text, unread, at the request's time |
| UserSkills.SkillTable.GetAllUserSkills | src/main/java/com/example/skillswap/controller/UserSkillController.java:19-22 | The whole table |
| UserSkills.SkillTable.GetUserSkills | src/main/java/com/example/skillswap/controller/UserSkillController.java:24-27 | Exactly the user's rows, in table order |
| UserSkills.SkillTable.AddUserSkill | src/main/java/com/example/skillswap/controller/UserSkillController.java:29-32 | A row without a skill name (a NOT NULL column) is refused; otherwise the row is appended with a fresh id, omitted flags false, and returned |
| UserSkills.SkillTable.DeleteUserSkill | src/main/java/com/example/skillswap/controller/UserSkillController.java:34-42 | 204 and the row removed when the id exists, 404 and no change otherwise |
| UserSkills.DeleteSpec | src/main/java/com/example/skillswap/controller/UserSkillController.java:36-41 | Deleting keeps every other row in order, removes exactly one row when the id exists and changes nothing when it does not |
| FileStorage.Extension | src/main/java/com/example/skillswap/service/FileStorageService.java:34-38 | No extension iff there is no dot or the last dot ends the name; otherwise a suffix of the name starting at its last dot, with at least one character after it |
| FileStorage.UploadDir.Store | src/main/java/com/example/skillswap/service/FileStorageService.java:28-46 | No file or an empty one is refused with "File is empty" and nothing written; otherwise the content is written under random name + extension of the cleaned name ("upload" when absent) and its URL is returned |
| FileStorage.UrlKeepsExtension | src/main/java/com/example/skillswap/service/FileStorageService.java:40-45 | The URL is "/uploads/" plus the stored name and ends with the extension; a name without a dot or ending in a dot gets none |
| Geolocation.QueryVariants | src/main/java/com/example/skillswap/service/GeolocationService.java:44-51 | Three queries in order: trimmed + ", USA", trimmed, then trimmed + ", United States" iff the input has a comma (trimmed again otherwise) |
| Geolocation.Attempt | src/main/java/com/example/skillswap/service/GeolocationService.java:72-120 | No results give no coordinates; coordinates found are those of one of the results |
| Geolocation.TryGeocode | src/main/java/com/example/skillswap/service/GeolocationService.java:72-120 | One attempt yields the best match's coordinates, or none when the search fails or has no results |
| Geolocation.FirstFound | src/main/java/com/example/skillswap/service/GeolocationService.java:53-61 | None iff every query yields nothing; otherwise the answer of one of the queries |
| Geolocation.GeocodeCity | src/main/java/com/example/skillswap/service/GeolocationService.java:35-67 | The loop computes `Geocoded` |
| Geolocation.GeocodedSpec | src/main/java/com/example/skillswap/service/GeolocationService.java:35-67 | A missing or blank name is not searched; otherwise the first variant that yields coordinates wins |
| Geolocation.ScorePlace | src/main/java/com/example/skillswap/service/GeolocationService.java:142-192 | A score between 0 and 50, 0 without an address |
| Geolocation.Scores | src/main/java/com/example/skillswap/service/GeolocationService.java:142-192 | Each result scored in place |
| Geolocation.FirstMax | src/main/java/com/example/skillswap/service/GeolocationService.java:194-197 | The position of the highest score, with no earlier position tying it |
| Geolocation.Pick | src/main/java/com/example/skillswap/service/GeolocationService.java:139-201 | The chosen place is one of the results; the first one when no score is positive; otherwise no positive score exceeds its own |
| Geolocation.ScoreResults | src/main/java/com/example/skillswap/service/GeolocationService.java:139-201 | The scoring loop picks the same place as `Pick` |
| Geolocation.FindBestMatch | src/main/java/com/example/skillswap/service/GeolocationService.java:126-202 | The method computes `BestMatch` |
| Geolocation.BestMatchSpec | src/main/java/com/example/skillswap/service/GeolocationService.java:139-201 | The chosen place has the highest score and no earlier place ties it; when no score is positive the first place is chosen |
| Geolocation.NamelessPlaceMatchesAnyCity | src/main/java/com/example/skillswap/service/GeolocationService.java:154-165 | A place without city, town or village earns the city bonus, since every string contains "" |
| Geolocation.StateBonus | src/main/java/com/example/skillswap/service/GeolocationService.java:168-185 | The state bonus is 15 iff a state was typed and the place's state contains it or it is two letters equal to the state code; otherwise 0 |
| Geolocation.SuggestionQuery | src/main/java/com/example/skillswap/service/GeolocationService.java:245-255 | ", USA" is appended unless the query has a comma and names "usa" or "united states", case-insensitively |
| Geolocation.FormatCitySuggestion | src/main/java/com/example/skillswap/service/GeolocationService.java:297-342 | None iff there is no address or no city/town/village/municipality name; "City, ST" with a two-letter state code, else "City, State", else "City" |
| Geolocation.Formatted | src/main/java/com/example/skillswap/service/GeolocationService.java:277-282 | At most one suggestion per result |
| Geolocation.FormattedMembers | src/main/java/com/example/skillswap/service/GeolocationService.java:277-282 | A string is formatted iff some result formats to it |
| Geolocation.GetCitySuggestions | src/main/java/com/example/skillswap/service/GeolocationService.java:235-292 | The loop with its contains-check computes `Suggestions` |
| Geolocation.SuggestionsSpec | src/main/java/com/example/skillswap/service/GeolocationService.java:235-292 | A missing or short (under 2 after trimming) query gives none; otherwise each result's suggestion appears exactly once, in first-occurrence order |
| Geolocation.SuggestionSplitsBack | src/main/java/com/example/skillswap/service/GeolocationService.java:131-136 | A suggestion "City, ST" typed back into geocoding splits into that city and that state, lower-cased |
| Geolocation.OwnSuggestionScoresCityAndState | src/main/java/com/example/skillswap/service/GeolocationService.java:153-185 | A place scored against its own suggestion earns the city and the state bonuses |
| Discover.Unswiped | frontend-web/src/pages/Discover.js:52-56 | A fetched user is kept iff it is not the current user and no swipe names it (by `userId`, else `id`); the kept users keep their order |
| Discover.MergeCard | frontend-web/src/pages/Discover.js:57-67 | The card carries the first profile its user owns, if any; the profile's major, location and coordinates win when truthy, then the user's location and coordinates, then "" for major and location |
| Discover.Feed | frontend-web/src/pages/Discover.js:55-98 | The feed has at most one card per fetched user; with years selected every card's profile year is selected; with the location filter on every card is located within the maximum distance |
| Discover.AnnotateDistances | frontend-web/src/pages/Discover.js:75-81 | The `forEach` writes a distance into exactly the located cards, and only when the current user has truthy coordinates |
| Discover.AnnotatedCards | frontend-web/src/pages/Discover.js:75-81 | The distance pass changes nothing but the distance, and only on located cards |
| Discover.FeedKeepsOrder | frontend-web/src/pages/Discover.js:55-96 | The feed's users are a subsequence of the unswiped users and of the fetched users |
| Discover.FeedMembership | frontend-web/src/pages/Discover.js:84-96 | A card is in the feed iff it is a candidate with a selected profile year (when years are selected) and with coordinates and a distance at most the maximum (when the location filter is on) |
| Discover.FeedCards | frontend-web/src/pages/Discover.js:52-67 | No card is the current user or a swipee (by `userId`, else `id`); each card is its user merged with the first profile it owns |
| Discover.ZeroIsNoCoordinate | frontend-web/src/pages/Discover.js:72-93 | Without truthy current coordinates no distance is written and the location filter empties the feed; a card with a 0 coordinate never has a distance nor passes that filter |
| Discover.ToggleYearSpec | frontend-web/src/pages/Discover.js:142-149 | The toggled year is present iff it was absent; other years are unchanged; no duplicates are introduced |
| Discover.ToggleYearTwice | frontend-web/src/pages/Discover.js:142-149 | Toggling twice restores an absent year exactly and a present one up to position |
| Discover.DiscoverPage.constructor | frontend-web/src/pages/Discover.js:10-17 | No cards, index 0, loading, and the default filters (no years, location off, 50 km) |
| Discover.DiscoverPage.LoadUsers | frontend-web/src/pages/Discover.js:42-105 | With the three answers the cards become `Feed` and the index 0; a failed request leaves them; loading ends either way |
| Discover.DiscoverPage.HandleSwipe | frontend-web/src/pages/Discover.js:119-140 | Past the end nothing is sent; otherwise the current card's swipe is sent, a like iff "right", and the index advances iff the request succeeded; the cards never change |
| Discover.DiscoverPage.ToggleYearFilter | frontend-web/src/pages/Discover.js:142-149 | The year list changes by `ToggleYear`; the `[filters]` effect then reloads, so with the three answers the cards become the new `Feed` and the index 0, and a failed request leaves them |
| Discover.DiscoverPage.ToggleLocationFilter | frontend-web/src/pages/Discover.js:151-156 | The location flag flips; the reload then makes the cards the new `Feed` with index 0, or leaves them when a request fails |
| Discover.DiscoverPage.SetMaxDistance | frontend-web/src/pages/Discover.js:207 | The maximum distance changes; the reload then makes the cards the new `Feed` with index 0, or leaves them when a request fails |
| WebDiscoverCard.DragDirection | frontend-web/src/components/DiscoverCard.js:11-16 | A drag beyond 100 in either direction swipes, "right" iff the offset is positive; otherwise nothing |
| WebDiscoverCard.ExitFor | frontend-web/src/components/DiscoverCard.js:13-19 | The exit offset is +200 for "right" and -200 otherwise |
| WebDiscoverCard.Round | frontend-web/src/components/DiscoverCard.js:75 | The nearest integer, halves rounded up |
| WebDiscoverCard.DistanceRow | frontend-web/src/components/DiscoverCard.js:70-78 | The row appears iff a distance is defined; metres (rounded) iff it is under 1 km, otherwise kilometres |
| WebDiscoverCard.Card.HandleDragEnd | frontend-web/src/components/DiscoverCard.js:11-16 | A short drag changes nothing; a long one sets the exit offset and reports its direction once |
| WebDiscoverCard.Card.HandleSwipeButton | frontend-web/src/components/DiscoverCard.js:18-21 | Sets the exit offset and reports exactly the button's direction once |
| WebDiscoverCard.Card.PressPass | frontend-web/src/components/DiscoverCard.js:85 | The PASS button sets the exit offset to -200 and reports "left" once |
| WebDiscoverCard.Card.PressLike | frontend-web/src/components/DiscoverCard.js:93 | The LIKE button sets the exit offset to +200 and reports "right" once |
| WebDiscoverCard.DragAgreesWithButton | frontend-web/src/components/DiscoverCard.js:11-21 | A drag and the button for its direction set the same exit offset |
| MobileDiscoverCard.ReleaseDirection | frontend-mobile/src/components/DiscoverCard.js:35-37 | A release beyond 120 in either direction swipes, "right" iff dx is positive; otherwise nothing |
| MobileDiscoverCard.Card.ShowUser | frontend-mobile/src/components/DiscoverCard.js:24-26 | A different user resets the position to (0, 0) |
| MobileDiscoverCard.Card.Move | frontend-mobile/src/components/DiscoverCard.js:32-34 | The position is the gesture's displacement |
| MobileDiscoverCard.Card.Release | frontend-mobile/src/components/DiscoverCard.js:35-52 | The card ends at (0, 0); a long release reports its direction once, a short one nothing |
| MobileDiscoverCard.Card.PressPass | frontend-mobile/src/components/DiscoverCard.js:112-118 | Reports "left" |
| MobileDiscoverCard.Card.PressLike | frontend-mobile/src/components/DiscoverCard.js:120-126 | Reports "right" |
| MobileDiscoverCard.ThresholdBetweenCards | frontend-mobile/src/components/DiscoverCard.js:36 | Every mobile swipe is a web swipe in the same direction, and the two differ exactly for offsets beyond 100 and up to 120 |
| Conversations.ParticipantId | frontend-web/src/pages/Matches.js:28-29 | `userId` when truthy, else `id`; undefined without a user |
| Conversations.CountLabel | frontend-web/src/pages/Matches.js:68 | "match" iff the count is 1, otherwise "matches" |
| Conversations.ListedSpec | frontend-web/src/pages/Matches.js:27-46 | The listed matches are exactly the fetched ones the current user takes part in, in fetched order, each with the first user (and profile) with the other participant's id |
| Conversations.OtherParticipant | frontend-web/src/pages/Messages.js:36-40 | The other participant is one of the two, and is the current user only when both are |
| Conversations.MessagesPage.LoadMatches | frontend-web/src/pages/Messages.js:24-57 | The conversations become the listed matches; the first is selected iff there is one and none was; a failed request changes nothing but loading |
| Conversations.MessagesPage.Select | frontend-web/src/pages/Messages.js:109 | Only the selection changes |
| Conversations.MessagesPage.LoadMessages | frontend-web/src/pages/Messages.js:59-66 | The fetched messages replace the shown ones; a failure keeps them |
| Conversations.MessagesPage.EditDraft | frontend-web/src/pages/Messages.js:160 | Only the draft changes |
| Conversations.MessagesPage.SendMessage | frontend-web/src/pages/Messages.js:68-83 | A blank draft or no selection sends nothing; otherwise the untrimmed draft is sent to the selected match, and success clears the draft and reloads while failure keeps both |
| Conversations.OwnershipFallback | frontend-web/src/pages/Messages.js:142 | A message is own iff its sender's `userId` is the current id, or, when that is falsy, its `id` |
| Session.UseAuth | frontend-web/src/contexts/AuthContext.js:5-11 | The context inside a provider, an error outside |
| Session.CurrentUserId | frontend-mobile/src/contexts/AuthContext.js:77-82 | Null without a user, else `userId` if truthy, else `id` if truthy, else null |
| Session.CurrentUserIdsAgree | frontend-web/src/contexts/AuthContext.js:61-68 | The web and mobile `getCurrentUserId` agree on every session |
| Session.IdIffIdentifiedUser | frontend-mobile/src/contexts/AuthContext.js:77-82 | An id is known iff there is a user with a truthy `userId` or `id` |
| Session.WebAuth.constructor | frontend-web/src/contexts/AuthContext.js:14-15 | Logged out and loading |
| Session.WebAuth.Start | frontend-web/src/contexts/AuthContext.js:17-42 | The stored user is removed and loading ends; no user is restored |
| Session.WebAuth.Login | frontend-web/src/contexts/AuthContext.js:44-47 | The user is set and stored |
| Session.WebAuth.Logout | frontend-web/src/contexts/AuthContext.js:49-54 | The stored copy is removed and the user cleared |
| Session.WebAuth.UpdateUser | frontend-web/src/contexts/AuthContext.js:56-59 | The user is set and stored |
| Session.MobileAuth.constructor | frontend-mobile/src/contexts/AuthContext.js:15-16 | Logged out and loading |
| Session.MobileAuth.LoadUser | frontend-mobile/src/contexts/AuthContext.js:22-54 | Loading ends logged out whatever storage does; the stored copy is gone unless both removals fail |
| Session.MobileAuth.Login | frontend-mobile/src/contexts/AuthContext.js:56-59 | The user is set before storing; a failed store is reported and leaves the stored copy |
| Session.MobileAuth.Logout | frontend-mobile/src/contexts/AuthContext.js:61-70 | The user is cleared even when removing the stored copy fails |
| Session.MobileAuth.UpdateUser | frontend-mobile/src/contexts/AuthContext.js:72-75 | As `Login` |
| Accounts.WithField | frontend-mobile/app/register.js:30-32 | The named field takes the value; every other field is unchanged |
| Accounts.CreateRequestFor | frontend-mobile/app/register.js:49-52 | The body carries the form's fields and `passwordHash` equal to the password |
| Accounts.RegistrationError | frontend-mobile/app/register.js:57-67 | "Cannot connect" iff a network message or code or no response; otherwise the response's message, else its status text, else "Server error: status" |
| Accounts.MobileRegisterScreen.HandleChange | frontend-mobile/app/register.js:30-32 | The form changes by `WithField` only |
| Accounts.MobileRegisterScreen.HandleRegister | frontend-mobile/app/register.js:34-78 | An empty field alerts and requests nothing; a taken email (exact match) creates nothing; otherwise the create body is sent and success logs in and goes to the profile tab; loading always ends false |
| Accounts.WebRegisterPage.HandleChange | frontend-web/src/pages/Register.js:20-25 | The form changes by `WithField` only |
| Accounts.WebRegisterPage.HandleSubmit | frontend-web/src/pages/Register.js:27-54 | A taken email sets "Email already registered" and creates nothing; otherwise the create body is sent, success logs in with a cleared error and goes to "/profile", failure shows its message or the fallback; loading always ends false |
| Accounts.WebFailure | frontend-web/src/pages/Register.js:50 | The error's message when truthy, otherwise the fallback text |
| Accounts.MobileLoginScreen.SetEmail | frontend-mobile/app/login.js:71 | Only the email changes |
| Accounts.MobileLoginScreen.SetPassword | frontend-mobile/app/login.js:86 | Only the password changes |
| Accounts.MobileLoginScreen.HandleLogin | frontend-mobile/app/login.js:25-49 | The outcome is `LoginOutcome`; loading ends false after any request |
| Accounts.LoginSpec | frontend-mobile/app/login.js:26-43 | Sign-in succeeds iff both fields are filled and some user has exactly that email, logging in the first such user; the password never affects the outcome |
| ProfileEditor.OwnedRowsSpec | frontend-web/src/pages/Profile.js:112-115 | The rows shown are exactly the fetched rows owned by the current user, in fetched order; different ids never share a row |
| ProfileEditor.LoadedFormFields | frontend-web/src/pages/Profile.js:26-43 | Loading keeps exactly the form's sixteen fields |
| ProfileEditor.UserFieldDefaults | frontend-web/src/pages/Profile.js:71-77 | First and last name are the user's values, and "" iff there is no user or the value is missing or empty |
| ProfileEditor.ProfileFieldDefaults | frontend-web/src/pages/Profile.js:79-96 | Each profile field is its value or "", and `showLocation` is checked iff the profile's flag is true |
| ProfileEditor.Changed | frontend-web/src/pages/Profile.js:123-129 | The named field takes `checked` for a checkbox and `value` otherwise; no other field changes |
| ProfileEditor.QueryFor | frontend-web/src/pages/Profile.js:140-147 | No search iff the input is shorter than 2 characters; otherwise the input itself |
| ProfileEditor.WithheldQueryHasNoSuggestions | frontend-web/src/pages/Profile.js:140-144 | An input the page does not search for would get no suggestions from the server either |
| ProfileEditor.ReverseLabel | frontend-web/src/pages/Profile.js:207-212 | "" without an address; "city, state" when both exist, else whichever is non-empty |
| ProfileEditor.ReverseLabelSpec | frontend-web/src/pages/Profile.js:208-212 | The label is "" iff no city, town, village, state code or state; with a city and a two-letter code it equals the server's suggestion for the same address |
| ProfileEditor.SaveTargetFor | frontend-web/src/pages/Profile.js:269-273 | Update iff there is a profile with a truthy id, and then that id; create otherwise |
| ProfileEditor.PhotoRequest | frontend-web/src/pages/Profile.js:286-293 | No upload without a file or a profile id; otherwise primary iff there are no photos yet |
| ProfileEditor.OnlyFirstPhotoPrimary | frontend-web/src/pages/Profile.js:293 | The first photo of a profile is primary and no later one is |
| ProfileEditor.ProfilePage.constructor | frontend-web/src/pages/Profile.js:17-47 | Loading, no user, profile or photos, the initial form, no suggestions and an empty status |
| ProfileEditor.ProfilePage.LoadProfile | frontend-web/src/pages/Profile.js:53-121 | With the six lists: the first user and profile of the current user, the form filled from them, "Location set" for a located profile, the fetched photos, and each related list filtered to the user; a failure changes only loading |
| ProfileEditor.ProfilePage.Lookup | frontend-web/src/pages/Profile.js:65-66 | The first user and the first profile of the current id |
| ProfileEditor.ProfilePage.ShowLoaded | frontend-web/src/pages/Profile.js:68-115 | The user and profile shown are the ones found, the form is filled from them, "Location set" is shown for a profile with truthy coordinates, the photos are replaced only when the profile exists and they were fetched, and the related lists are the filtered ones |
| ProfileEditor.ProfilePage.HandleChange | frontend-web/src/pages/Profile.js:123-129 | The form changes by `Changed` only |
| ProfileEditor.ProfilePage.HandleLocationInput | frontend-web/src/pages/Profile.js:131-165 | The field takes the input; a short input clears and hides the suggestions and schedules nothing, a longer one schedules a search for itself |
| ProfileEditor.ProfilePage.SearchFires | frontend-web/src/pages/Profile.js:147-162 | The waiting input is searched once; a list answer is shown, anything else clears and hides the list |
| ProfileEditor.ProfilePage.SelectLocation | frontend-web/src/pages/Profile.js:167-176 | The field takes the suggestion, the list is cleared and hidden, and no search waits |
| ProfileEditor.ProfilePage.UsePreciseLocation | frontend-web/src/pages/Profile.js:187-245 | Without geolocation or a position only the status changes; with an answer the field takes the place label or the coordinates' text, the profile's location is sent iff it has an id, and the status reports the save |
| ProfileEditor.ProfilePage.HandleSubmit | frontend-web/src/pages/Profile.js:247-284 | The user is updated first; then the profile is updated or created by `SaveTargetFor`, and the status reports success or failure; saving ends false |
| ProfileEditor.ProfilePage.HandlePhotoUpload | frontend-web/src/pages/Profile.js:286-296 | The upload sent is `PhotoRequest` for the page's profile and photo count |
| Text.IsWhitespace | src/main/java/com/example/skillswap/service/MatchingService.java:283-285 | Among the characters `isBlank()` treats as white space, `trim()` removes exactly the ASCII ones; the Unicode separators count as blank but survive trimming |
| Text.Trim | src/main/java/com/example/skillswap/service/GeolocationService.java:40 | The result is no longer than the input, its ends are above U+0020, and it is empty iff every character is up to U+0020 |
| Text.TrimJoinSpace | src/main/java/com/example/skillswap/service/MatchingService.java:178-180 | Trimming "f l": empty iff f and l are blank up to U+0020; unchanged when both are non-empty and trimmed; just f when l is empty; just l when f is empty |
| Text.TrimAround | src/main/java/com/example/skillswap/service/MatchingService.java:180 | Trimming an already-trimmed string padded on both sides with characters up to U+0020 gives that string back |
| Sequences.FlattenCovers | src/main/java/com/example/skillswap/service/MatchingService.java:75-91 | What the per-element step yields for any element of the list is in the accumulated result |
| Sequences.FlattenMember | src/main/java/com/example/skillswap/service/MatchingService.java:75-91 | Everything in the accumulated result was yielded by the per-element step for some element of the list |
| Text.TrimIsMiddle | src/main/java/com/example/skillswap/service/GeolocationService.java:40 | The trimmed string is a contiguous part of the input, with only characters up to U+0020 cut on either side |
| Text.SplitComma | src/main/java/com/example/skillswap/service/GeolocationService.java:134 | No comma gives the input itself; no piece holds a comma; with a comma the last piece is non-empty; the pieces joined with commas give the input minus trailing commas only |
| Js.Truthy | frontend-web/src/contexts/AuthContext.js:64 | An id is falsy iff it is `undefined`, `null` or 0 |
| Js.Or | frontend-web/src/pages/Discover.js:52 | `a \|\| b` is `a` when `a` is truthy and `b` otherwise |

## Left out

- Great-circle distance: `calculateDistanceKm` in MatchingService, `calculateDistance` in GeolocationService and in Discover.js are the parameter `dist`; no property of the trigonometry is modelled.
- Floating point: coordinates, scores and distances are reals, so rounding and `NaN` are not modelled.
- The distance label's `toFixed(1)` text and the coordinate text `toFixed(4)` in Profile.js are not modelled; the latter is a parameter.
- Network and JSON: HTTP requests, Nominatim, Jackson parsing and the axios clients are not modelled. Their answers are arguments, `None` standing for a failed request or a thrown exception.
- HTTP routing: the web client fetches a match's messages from `/api/messages/match/{id}` while the backend maps `/api/messages/{matchId}`. Routes are not modelled, so this mismatch is not captured.
- Timers and concurrency: `Promise.all`, async ordering and the 300 ms debounce are not modelled. The debounce is one waiting query (`pendingQuery`), fired by `SearchFires`.
- Timers and concurrency: the 3-second status reset and the stats reload after a like are not modelled either.
- Discover's `loadStats` is not modelled. Its two counters are only displayed, and both equal the number of all matches.
- Rendering, animation, navigation and `ViewProfile.js` are not modelled. A route appears only as the string a handler navigates to. The messages page renders `message.content`, which the server's rows do not have; that is rendering.
- Case folding: `toLowerCase`/`equalsIgnoreCase` fold ASCII letters only. Full Unicode case mapping is not modelled.
- String length counts `char`s, not UTF-16 code units.
- The reason texts of a recommendation ("Shared interests: …") are kept as structured reasons; their string formatting is not modelled.
- Set order: the complementary skills are a set, because the source collects them in a `HashSet` whose iteration order is unspecified.
- Files: `UUID.randomUUID` and `StringUtils.cleanPath` are parameters. `Files.copy` is a map update, and directory creation is left out.
- JPA: rows are values in sequences. Lazy loading and entity merging are not modelled. Match and message ids are generated by a counter (`nextMatchId`, `nextMessageId`). Swipe rows carry no id: two identical swipes are equal values, so the swipe queries state their results by multiset counts, not by row identity.
- Profile.js `handleSubmit`: it also hands the updated user to the session's `updateUser`. That call and the request bodies are not modelled; the model records the user row, the save target and the result.
- ProfileEditor.ProfilePage.UsePreciseLocation: the profile update and the user update are modelled as one request (`saveOk`).
- The browser's `required` check on the web registration inputs is not modelled.
- Pass-through controllers and the entity classes are left out. The entity classes contribute only fields and defaults.

## Findings

| source | as written | input that shows it | evidently intended | confidence | as-written member | corrected member |
|---|---|---|---|---|---|---|
| src/main/java/com/example/skillswap/controller/SwipeController.java:44-47 | The reverse swipe is looked up with a query that returns one optional row. Swipes are never deduplicated, so once the swipee has swiped the swiper twice the lookup fails. The failure comes after the new swipe is saved, and the mutual like never becomes a match. | Users 1 and 2, two likes from 2 to 1, then a like from 1 to 2 | Any earlier like from the swipee answers this like | medium, not executed | SwipeLedger.RepeatedReverseLikeBlocksMatch | SwipeLedger.IntendedAutoMatchSpec |
| frontend-web/src/pages/Messages.js:73-77 | The page posts the text under `content`, but the message entity's property is `messageContent`, a NOT NULL column (src/main/java/com/example/skillswap/model/Message.java:23-24). The text is dropped and the insert is refused. | Any non-blank draft in an existing match, sent by an existing user | The text is posted as `messageContent` and stored | medium, not executed | MessageWire.WebSendRefused | MessageWire.IntendedWebSendStored |
