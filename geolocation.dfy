/**
 * The geocoding helpers: turning a typed city ("Atlanta, GA") into
 * coordinates by trying several search queries and scoring the places the
 * search service returns, and turning search results into "City, ST"
 * suggestions. The search service itself is a parameter.
 */
module Geolocation {
  import opened Wrappers
  import opened Text
  import opened Sequences

  /** The `address` object of a search result; each field present or absent. */
  datatype Address = Address(countryCode: Option<string>, city: Option<string>, town: Option<string>,
                             village: Option<string>, municipality: Option<string>,
                             state: Option<string>, stateCode: Option<string>)

  /** One search result: its address, its `type` and its `lat`/`lon`, each possibly absent. */
  datatype Place = Place(address: Option<Address>, kind: Option<string>, lat: Option<real>, lon: Option<real>)

  datatype Coordinates = Coordinates(latitude: real, longitude: real)

  /** `lowerOriginal.split(",")` has no element (the city is made of commas only): `parts[0]` throws. */
  datatype GeoError = NoCityPart

  /** The search service: the parsed results of one query; [] when it failed or found nothing. */
  type Search = string -> seq<Place>

  // ------------------------------------------------------- query variants

  /** The queries tried for a trimmed city, in order. */
  function QueryVariants(trimmed: string): (r: seq<string>)
    ensures |r| == 3
    ensures forall q :: q in r ==> StartsWith(q, trimmed)
    ensures r[0] == trimmed + ", USA" && r[1] == trimmed
    ensures r[2] == trimmed <==> ',' !in trimmed
  {
    [trimmed + ", USA", trimmed, if ',' in trimmed then trimmed + ", United States" else trimmed]
  }

  // ---------------------------------------------------------------- scoring

  /** The parts of the typed city the results are scored against: its city and state. */
  function Parts(originalCity: string): seq<string> {
    SplitComma(Lower(originalCity))
  }

  function CityPart(parts: seq<string>): string
    requires parts != []
  {
    Trim(parts[0])
  }

  function StatePart(parts: seq<string>): string {
    if |parts| > 1 then Trim(parts[1]) else ""
  }

  /** The place's own name, lowercased: city, else town, else village, else "". */
  function PlaceName(a: Address): string {
    if a.city.Some? then Lower(a.city.value)
    else if a.town.Some? then Lower(a.town.value)
    else if a.village.Some? then Lower(a.village.value)
    else ""
  }

  /**
   * The state bonus is earned only when a state was typed, and then iff the place's state
   * contains it or it is two letters equal to the place's state code.
   */
  function StateBonus(a: Address, statePart: string): (r: int)
    ensures r == 0 || r == 15
    ensures r == 15 <==>
      statePart != ""
      && (Contains(Lower(a.state.GetOr("")), statePart)
          || (|statePart| == 2 && Lower(a.stateCode.GetOr("")) == statePart))
  {
    if statePart == "" then 0
    else
      var state := Lower(a.state.GetOr(""));
      if Contains(state, statePart) || |statePart| == 2 then
        var abbreviation := Lower(a.stateCode.GetOr(""));
        if abbreviation == statePart || Contains(state, statePart) then 15 else 0
      else 0
  }

  /** How well a place fits the typed city and state. */
  function ScorePlace(p: Place, cityPart: string, statePart: string): (score: int)
    ensures 0 <= score <= 50
    ensures p.address.None? ==> score == 0
  {
    match p.address
    case None => 0
    case Some(a) =>
      var name := PlaceName(a);
      var kind := Lower(p.kind.GetOr(""));
      (if Lower(a.countryCode.GetOr("")) == "us" then 10 else 0)
      + (if Contains(name, cityPart) || Contains(cityPart, name) then 20 else 0)
      + StateBonus(a, statePart)
      + (if Contains(kind, "city") || Contains(kind, "town") then 5 else 0)
  }

  function Scores(results: seq<Place>, cityPart: string, statePart: string): (r: seq<int>)
    ensures |r| == |results|
    ensures forall i :: 0 <= i < |r| ==> r[i] == ScorePlace(results[i], cityPart, statePart)
  {
    Map(results, (p: Place) => ScorePlace(p, cityPart, statePart))
  }

  /** The index of the first highest score. */
  function FirstMax(scores: seq<int>): (k: nat)
    requires scores != []
    ensures k < |scores|
    ensures forall j :: 0 <= j < |scores| ==> scores[j] <= scores[k]
    ensures forall j :: 0 <= j < k ==> scores[j] < scores[k]
  {
    if |scores| == 1 then 0
    else
      var k := FirstMax(scores[..|scores| - 1]);
      if scores[|scores| - 1] > scores[k] then |scores| - 1 else k
  }

  /** The first best-scoring place when its score is positive, else the first place. */
  function Pick(results: seq<Place>, cityPart: string, statePart: string): (r: Place)
    requires results != []
    ensures r in results
    ensures (forall j :: 0 <= j < |results| ==> ScorePlace(results[j], cityPart, statePart) <= 0) ==> r == results[0]
    ensures forall j :: 0 <= j < |results| && ScorePlace(results[j], cityPart, statePart) > 0 ==>
      ScorePlace(results[j], cityPart, statePart) <= ScorePlace(r, cityPart, statePart)
  {
    var scores := Scores(results, cityPart, statePart);
    var k := FirstMax(scores);
    if scores[k] > 0 then results[k] else results[0]
  }

  /** The place the scoring picks for the typed city, if the typed city can be split. */
  function BestMatch(results: seq<Place>, originalCity: string): Result<Option<Place>, GeoError> {
    var parts := Parts(originalCity);
    if results == [] then Ok(None)
    else if parts == [] then Err(NoCityPart)
    else Ok(Some(Pick(results, CityPart(parts), StatePart(parts))))
  }

  /** The scoring loop: keeps the first place with the highest score seen so far. */
  method ScoreResults(results: seq<Place>, cityPart: string, statePart: string) returns (p: Place)
    requires results != []
    ensures p == Pick(results, cityPart, statePart)
  {
    ghost var scores := Scores(results, cityPart, statePart);
    var best: Option<nat> := None;
    var bestScore := -1;
    for i := 0 to |results|
      invariant i == 0 <==> best.None?
      invariant i == 0 ==> bestScore == -1
      invariant i > 0 ==> best == Some(FirstMax(scores[..i])) && bestScore == scores[best.value]
    {
      var score := ScorePlace(results[i], cityPart, statePart);
      assert score == scores[i];
      assert scores[..i + 1][..i] == scores[..i];
      if score > bestScore {
        bestScore := score;
        best := Some(i);
      }
    }
    assert scores[..|results|] == scores;
    p := if bestScore > 0 then results[best.value] else results[0];
  }

  method FindBestMatch(results: seq<Place>, originalCity: string) returns (r: Result<Option<Place>, GeoError>)
    ensures r == BestMatch(results, originalCity)
  {
    if results == [] {
      return Ok(None);
    }
    var parts := Parts(originalCity);
    if parts == [] {
      return Err(NoCityPart);
    }
    var cityPart := Trim(parts[0]);
    var statePart := if |parts| > 1 then Trim(parts[1]) else "";
    var p := ScoreResults(results, cityPart, statePart);
    r := Ok(Some(p));
  }

  /**
   * The chosen place has the highest score and no earlier place ties with it; when no
   * place scores above 0 the first place is chosen.
   */
  lemma BestMatchSpec(results: seq<Place>, originalCity: string)
    requires results != [] && Parts(originalCity) != []
    ensures var parts := Parts(originalCity);
      var scores := Scores(results, CityPart(parts), StatePart(parts));
      exists k :: 0 <= k < |results| && BestMatch(results, originalCity) == Ok(Some(results[k]))
        && ((forall j :: 0 <= j < |results| ==> scores[j] <= 0) ==> k == 0)
        && ((exists j :: 0 <= j < |results| && scores[j] > 0) ==>
              (forall j :: 0 <= j < |results| ==> scores[j] <= scores[k])
              && (forall j :: 0 <= j < k ==> scores[j] < scores[k]))
  {
    var parts := Parts(originalCity);
    var scores := Scores(results, CityPart(parts), StatePart(parts));
    var k := FirstMax(scores);
    if scores[k] > 0 {
      assert Pick(results, CityPart(parts), StatePart(parts)) == results[k];
    } else {
      assert Pick(results, CityPart(parts), StatePart(parts)) == results[0];
    }
  }

  /** A place with no city, town or village name earns the city bonus: every string contains "". */
  lemma NamelessPlaceMatchesAnyCity(a: Address, cityPart: string)
    requires PlaceName(a) == ""
    ensures Contains(cityPart, PlaceName(a))
  {
    ContainsEmpty(cityPart);
  }

  // --------------------------------------------------------------- geocoding

  /** One attempt: the coordinates of the best place the query finds, if any. */
  function Attempt(query: string, originalCity: string, search: Search): (r: Option<Coordinates>)
    ensures search(query) == [] ==> r.None?
    ensures r.Some? ==> exists p :: p in search(query) && p.lat == Some(r.value.latitude) && p.lon == Some(r.value.longitude)
  {
    var results := search(query);
    if results == [] then None
    else
      match BestMatch(results, originalCity)
      case Ok(Some(p)) =>
        if p.lat.Some? && p.lon.Some? then Some(Coordinates(p.lat.value, p.lon.value)) else None
      case _ => None
  }

  method TryGeocode(query: string, originalCity: string, search: Search) returns (r: Option<Coordinates>)
    ensures r == Attempt(query, originalCity, search)
  {
    var results := search(query);
    if results == [] {
      return None;
    }
    var best := FindBestMatch(results, originalCity);
    if best.Ok? && best.value.Some? {
      var p := best.value.value;
      if p.lat.Some? && p.lon.Some? {
        return Some(Coordinates(p.lat.value, p.lon.value));
      }
    }
    return None;
  }

  /** The first attempt, over the queries in order, that finds coordinates. */
  function FirstFound(queries: seq<string>, originalCity: string, search: Search): (r: Option<Coordinates>)
    ensures r.None? <==> forall i :: 0 <= i < |queries| ==> Attempt(queries[i], originalCity, search).None?
    ensures r.Some? ==> exists i :: 0 <= i < |queries| && Attempt(queries[i], originalCity, search) == r
                          && forall j :: 0 <= j < i ==> Attempt(queries[j], originalCity, search).None?
  {
    if queries == [] then None
    else
      var first := Attempt(queries[0], originalCity, search);
      if first.Some? then first
      else
        var rest := FirstFound(queries[1..], originalCity, search);
        assert forall i :: 0 <= i < |queries[1..]| ==> queries[1..][i] == queries[i + 1];
        rest
  }

  function Geocoded(cityName: Option<string>, search: Search): Option<Coordinates> {
    if cityName.None? || Trim(cityName.value) == [] then None
    else
      var trimmed := Trim(cityName.value);
      FirstFound(QueryVariants(trimmed), trimmed, search)
  }

  method GeocodeCity(cityName: Option<string>, search: Search) returns (r: Option<Coordinates>)
    ensures r == Geocoded(cityName, search)
  {
    if cityName.None? || Trim(cityName.value) == [] {
      return None;
    }
    var trimmed := Trim(cityName.value);
    var queries := [trimmed + ", USA", trimmed, if ',' in trimmed then trimmed + ", United States" else trimmed];
    for i := 0 to |queries|
      invariant FirstFound(queries, trimmed, search) == FirstFound(queries[i..], trimmed, search)
    {
      assert queries[i..][1..] == queries[i + 1..];
      var attempt := TryGeocode(queries[i], trimmed, search);
      if attempt.Some? {
        return attempt;
      }
    }
    return None;
  }

  /**
   * Geocoding never searches for a missing or blank city; otherwise its answer is the first
   * of the three query variants, tried in order, that yields coordinates.
   */
  lemma GeocodedSpec(cityName: Option<string>, search: Search)
    ensures cityName.None? || Trim(cityName.value) == [] ==> Geocoded(cityName, search).None?
    ensures cityName.Some? && Trim(cityName.value) != [] ==>
      var trimmed := Trim(cityName.value);
      var queries := QueryVariants(trimmed);
      (Geocoded(cityName, search).None? <==> forall i :: 0 <= i < 3 ==> Attempt(queries[i], trimmed, search).None?)
      && (Attempt(queries[0], trimmed, search).Some? ==> Geocoded(cityName, search) == Attempt(queries[0], trimmed, search))
      && (Attempt(queries[0], trimmed, search).None? && Attempt(queries[1], trimmed, search).Some? ==>
            Geocoded(cityName, search) == Attempt(queries[1], trimmed, search))
  {
  }

  // ------------------------------------------------------------- suggestions

  /** The suggestion search: ", USA" is added unless a comma is typed and a country is named. */
  function SuggestionQuery(trimmed: string): (q: string)
    ensures q == trimmed || q == trimmed + ", USA"
    ensures q == trimmed <==>
      ',' in trimmed && (Contains(Lower(trimmed), "usa") || Contains(Lower(trimmed), "united states"))
  {
    if ',' !in trimmed then trimmed + ", USA"
    else if !Contains(Lower(trimmed), "usa") && !Contains(Lower(trimmed), "united states") then trimmed + ", USA"
    else trimmed
  }

  /** The place's name for a suggestion, as written: city, town, village, then municipality. */
  function SuggestedCity(a: Address): string {
    if a.city.Some? then a.city.value
    else if a.town.Some? then a.town.value
    else if a.village.Some? then a.village.value
    else a.municipality.GetOr("")
  }

  /** The state for a suggestion: a two-character state code when present, else the state. */
  function SuggestedState(a: Address): string {
    if a.stateCode.Some? && |a.stateCode.value| == 2 then a.stateCode.value else a.state.GetOr("")
  }

  /** "City, ST", or "City" when no state is known; nothing for a place without a name. */
  function FormatCitySuggestion(p: Place): (r: Option<string>)
    ensures r.None? <==> p.address.None? || SuggestedCity(p.address.value) == ""
    ensures r.Some? ==> StartsWith(r.value, SuggestedCity(p.address.value))
    ensures r.Some? && SuggestedState(p.address.value) != "" ==>
      r.value[|SuggestedCity(p.address.value)|..] == ", " + SuggestedState(p.address.value)
    ensures r.Some? && SuggestedState(p.address.value) == "" ==> r.value == SuggestedCity(p.address.value)
  {
    match p.address
    case None => None
    case Some(a) =>
      var city := SuggestedCity(a);
      if city == "" then None
      else
        var state := SuggestedState(a);
        if state == "" then Some(city) else Some(city + ", " + state)
  }

  /** The suggestions of the results up to the end, duplicates dropped, first occurrences kept. */
  function Formatted(places: seq<Place>): (r: seq<string>)
    ensures |r| <= |places|
  {
    if places == [] then []
    else
      var init := Formatted(places[..|places| - 1]);
      match FormatCitySuggestion(places[|places| - 1])
      case None => init
      case Some(s) => init + [s]
  }

  function Suggestions(query: Option<string>, search: Search): seq<string> {
    if query.None? || |Trim(query.value)| < 2 then []
    else Dedup(Formatted(search(SuggestionQuery(Trim(query.value)))))
  }

  method GetCitySuggestions(query: Option<string>, search: Search) returns (suggestions: seq<string>)
    ensures suggestions == Suggestions(query, search)
  {
    suggestions := [];
    if query.None? || |Trim(query.value)| < 2 {
      return;
    }
    var trimmed := Trim(query.value);
    var searchQuery := trimmed;
    if ',' !in trimmed {
      searchQuery := trimmed + ", USA";
    } else if !Contains(Lower(trimmed), "usa") && !Contains(Lower(trimmed), "united states") {
      searchQuery := trimmed + ", USA";
    }
    assert searchQuery == SuggestionQuery(trimmed);
    var results := search(searchQuery);
    for i := 0 to |results|
      invariant suggestions == Dedup(Formatted(results[..i]))
    {
      FormattedStep(results, i);
      var suggestion := FormatCitySuggestion(results[i]);
      if suggestion.Some? && suggestion.value !in suggestions {
        suggestions := suggestions + [suggestion.value];
      }
    }
    assert results[..|results|] == results;
  }

  /**
   * A short query gives no suggestions; otherwise each named place's suggestion appears
   * exactly once, in the order of its first occurrence among the results.
   */
  lemma SuggestionsSpec(query: Option<string>, search: Search)
    ensures query.None? || |Trim(query.value)| < 2 ==> Suggestions(query, search) == []
    ensures NoDuplicates(Suggestions(query, search))
    ensures query.Some? && |Trim(query.value)| >= 2 ==>
      var places := search(SuggestionQuery(Trim(query.value)));
      (forall s :: s in Suggestions(query, search) <==> exists p :: p in places && FormatCitySuggestion(p) == Some(s))
      && IsSubsequence(Suggestions(query, search), Formatted(places))
      && (forall i, j :: 0 <= i < j < |Suggestions(query, search)| ==>
            FirstIndex(Formatted(places), Suggestions(query, search)[i])
              < FirstIndex(Formatted(places), Suggestions(query, search)[j]))
  {
    if query.Some? && |Trim(query.value)| >= 2 {
      var places := search(SuggestionQuery(Trim(query.value)));
      assert Suggestions(query, search) == Dedup(Formatted(places));
      DedupFormatted(places);
    }
  }

  lemma DedupFormatted(places: seq<Place>)
    ensures var d := Dedup(Formatted(places));
      (forall s :: s in d <==> exists p :: p in places && FormatCitySuggestion(p) == Some(s))
      && IsSubsequence(d, Formatted(places))
      && (forall i, j :: 0 <= i < j < |d| ==> FirstIndex(Formatted(places), d[i]) < FirstIndex(Formatted(places), d[j]))
  {
    var f := Formatted(places);
    FormattedMembers(places);
    DedupIsSubsequence(f);
    DedupMembers(f);
    DedupFirstOccurrenceOrder(f);
  }

  /** One more result adds its suggestion, unless it has none or it is already there. */
  lemma FormattedStep(results: seq<Place>, i: nat)
    requires i < |results|
    ensures var d := Dedup(Formatted(results[..i]));
      Dedup(Formatted(results[..i + 1]))
        == match FormatCitySuggestion(results[i])
           case None => d
           case Some(s) => if s in d then d else d + [s]
  {
    assert results[..i + 1][..i] == results[..i];
    var f := Formatted(results[..i]);
    if FormatCitySuggestion(results[i]).Some? {
      var s := FormatCitySuggestion(results[i]).value;
      assert (f + [s])[..|f|] == f;
    }
  }

  lemma {:induction false} FormattedMembers(places: seq<Place>)
    ensures forall s :: s in Formatted(places) <==> exists p :: p in places && FormatCitySuggestion(p) == Some(s)
  {
    if places != [] {
      var init := places[..|places| - 1];
      FormattedMembers(init);
      assert places == init + [places[|places| - 1]];
      forall s | s in Formatted(places) ensures exists p :: p in places && FormatCitySuggestion(p) == Some(s) {
        if s in Formatted(init) {
          var p :| p in init && FormatCitySuggestion(p) == Some(s);
          assert p in places;
        }
      }
    }
  }

  // ------------------------------------------------ suggestions typed back

  /** A name the suggestion format and the comma split agree on: no comma, nothing to trim. */
  predicate PlainName(s: string) {
    s != [] && ',' !in s && !IsTrimmed(s[0]) && !IsTrimmed(s[|s| - 1])
  }

  /**
   * A suggestion "City, ST" typed back into geocoding is split into that city and that
   * state, lowercased.
   */
  lemma SuggestionSplitsBack(city: string, state: string)
    requires PlainName(city) && PlainName(state)
    ensures var parts := Parts(city + ", " + state);
      parts != [] && CityPart(parts) == Lower(city) && StatePart(parts) == Lower(state)
  {
    var lc, ls := Lower(city), Lower(state);
    LowerSuggestion(city, state);
    LowerKeepsPlain(city);
    LowerKeepsPlain(state);
    PlainSplitsBack(lc, ls);
  }

  lemma PlainSplitsBack(a: string, b: string)
    requires PlainName(a) && PlainName(b)
    ensures var parts := SplitComma(a + "," + (" " + b));
      parts != [] && Trim(parts[0]) == a && StatePart(parts) == b
  {
    SplitTwoPlain(a, b);
    PlainTrimmed(a);
    PlainTrimmed(b);
    SpaceTrimmedAway(b);
    assert Trim(" " + b) == b;
  }

  lemma LowerSuggestion(city: string, state: string)
    ensures Lower(city + ", " + state) == Lower(city) + "," + (" " + Lower(state))
  {
  }

  lemma SplitTwoPlain(a: string, b: string)
    requires PlainName(a) && PlainName(b)
    ensures SplitComma(a + "," + (" " + b)) == [a, " " + b]
  {
    CommaPiecesSplit(a, " " + b);
    NoCommaOnePiece(" " + b);
    assert CommaPieces(a + "," + (" " + b)) == [a, " " + b];
    assert ',' in a + "," + (" " + b) by { assert (a + "," + (" " + b))[|a|] == ','; }
  }

  lemma SpaceTrimmedAway(s: string)
    ensures TrimStart(" " + s) == TrimStart(s)
  {
    assert (" " + s)[1..] == s;
  }

  /**
   * A named place earns the city and the state bonuses against its own suggestion typed
   * back: the two helpers read the same address fields.
   */
  lemma OwnSuggestionScoresCityAndState(p: Place)
    requires p.address.Some?
    requires var a := p.address.value;
      (a.city.Some? || a.town.Some? || a.village.Some?)
      && PlainName(SuggestedCity(a)) && PlainName(SuggestedState(a))
    ensures var a := p.address.value;
      var parts := Parts(FormatCitySuggestion(p).value);
      parts != []
      && Contains(PlaceName(a), CityPart(parts))
      && StateBonus(a, StatePart(parts)) == 15
  {
    var a := p.address.value;
    assert FormatCitySuggestion(p).value == SuggestedCity(a) + ", " + SuggestedState(a);
    SuggestionSplitsBack(SuggestedCity(a), SuggestedState(a));
    assert PlaceName(a) == Lower(SuggestedCity(a));
    assert Contains(PlaceName(a), PlaceName(a)) by { assert StartsWith(PlaceName(a), PlaceName(a)); }
    OwnStateScores(a);
  }

  lemma OwnStateScores(a: Address)
    requires SuggestedState(a) != ""
    ensures StateBonus(a, Lower(SuggestedState(a))) == 15
  {
    var lower := Lower(SuggestedState(a));
    if a.stateCode.Some? && |a.stateCode.value| == 2 {
      assert Lower(a.stateCode.GetOr("")) == lower;
    } else {
      assert Lower(a.state.GetOr("")) == lower;
      assert Contains(lower, lower) by { assert StartsWith(lower, lower); }
    }
  }

  lemma LowerKeepsPlain(s: string)
    requires PlainName(s)
    ensures PlainName(Lower(s))
  {
  }

  lemma PlainTrimmed(s: string)
    requires PlainName(s)
    ensures Trim(s) == s
  {
  }

  lemma {:induction false} NoCommaOnePiece(s: string)
    requires ',' !in s
    ensures CommaPieces(s) == [s]
  {
    if s != [] {
      NoCommaOnePiece(s[1..]);
      assert [s[0]] + s[1..] == s;
    }
  }

  lemma {:induction false} CommaPiecesSplit(a: string, b: string)
    requires ',' !in a
    ensures CommaPieces(a + "," + b) == [a] + CommaPieces(b)
  {
    if a == [] {
      assert a + "," + b == [','] + b;
      assert ([','] + b)[1..] == b;
    } else {
      CommaPiecesSplit(a[1..], b);
      assert (a + "," + b)[1..] == a[1..] + "," + b;
      assert [a[0]] + a[1..] == a;
    }
  }
}
