/**
 * The web profile editor: loading the signed-in user's user row, profile and
 * related rows, the edit form with its defaults, the location field with its
 * suggestions, the location taken from the device, saving, and photo upload.
 * Every request's answer is an argument of the handler that awaits it.
 */
module ProfileEditor {
  import opened Wrappers
  import opened Js
  import opened Sequences
  import Geolocation
  import FileStorage

  // ------------------------------------------------------------ fetched data

  /** A user row as fetched: its id and names. */
  datatype LoadedUser = LoadedUser(userId: JsId, firstName: JsStr, lastName: JsStr)

  /**
   * A profile row as fetched: its owner's `user?.userId`, its id, its text properties by name
   * (a missing name is `undefined`), `showLocation` and its coordinates.
   */
  datatype LoadedProfile = LoadedProfile(ownerId: JsId, profileId: JsId, text: map<FieldName, JsStr>,
                                         showLocation: Option<bool>, latitude: JsNum, longitude: JsNum)

  /** A skill, interest, organization or language row: its owner's `user?.userId` and its own id. */
  datatype Related = Related(ownerId: JsId, recordId: JsId)

  /** The skill, interest, organization and language lists. */
  datatype RelatedLists = RelatedLists(skills: seq<Related>, interests: seq<Related>, organizations: seq<Related>,
                                       languages: seq<Related>)

  const NoRelated := RelatedLists([], [], [], [])

  /** The six lists the page fetches together. */
  datatype Fetched = Fetched(users: seq<LoadedUser>, profiles: seq<LoadedProfile>, related: RelatedLists)

  datatype Photo = Photo(photoId: JsId)

  function Prop(p: LoadedProfile, name: FieldName): JsStr {
    if name in p.text then p.text[name] else None
  }

  /** `users.find(u => u.userId === userId)`. */
  function UserOf(users: seq<LoadedUser>, userId: JsId): Option<LoadedUser> {
    FindFirst(users, (u: LoadedUser) => u.userId == userId)
  }

  /** `profiles.find(p => p.user?.userId === userId)`. */
  function ProfileOf(profiles: seq<LoadedProfile>, userId: JsId): Option<LoadedProfile> {
    FindFirst(profiles, (p: LoadedProfile) => p.ownerId == userId)
  }

  /** `rows.filter(r => r.user?.userId === userId)`. */
  function OwnedRows(rows: seq<Related>, userId: JsId): seq<Related> {
    Filter(rows, (r: Related) => r.ownerId == userId)
  }

  /** Each related list filtered to the user's rows. */
  function RelatedOf(lists: RelatedLists, userId: JsId): RelatedLists {
    RelatedLists(OwnedRows(lists.skills, userId), OwnedRows(lists.interests, userId),
                 OwnedRows(lists.organizations, userId), OwnedRows(lists.languages, userId))
  }

  /**
   * The rows shown are exactly the fetched rows owned by the current user, in fetched order;
   * two different ids never share a row.
   */
  lemma OwnedRowsSpec(rows: seq<Related>, userId: JsId, otherId: JsId)
    ensures forall r :: r in OwnedRows(rows, userId) <==> r in rows && r.ownerId == userId
    ensures IsSubsequence(OwnedRows(rows, userId), rows)
    ensures otherId != userId ==> forall r :: r in OwnedRows(rows, userId) ==> r !in OwnedRows(rows, otherId)
  {
    var p := (r: Related) => r.ownerId == userId;
    var q := (r: Related) => r.ownerId == otherId;
    forall r ensures r in OwnedRows(rows, userId) <==> r in rows && r.ownerId == userId {
      FilterMember(rows, p, r);
    }
    forall r ensures r in OwnedRows(rows, otherId) <==> r in rows && r.ownerId == otherId {
      FilterMember(rows, q, r);
    }
    FilterIsSubsequence(rows, p);
  }

  // -------------------------------------------------------------------- form

  /** A form value: text, or the checked state of a checkbox. */
  datatype FormValue = Str(s: string) | Flag(b: bool)

  /** The names of the form's inputs. */
  datatype FieldName =
    | FirstName | LastName | Bio | Major | Year | Location | ShowLocation | CareerGoals | Availability
    | Career | CareerExperience | ResearchPublications | Awards | Linkedin | Github | Portfolio

  /** Every input name. */
  const Fields: set<FieldName> := set k: FieldName | true

  /** The fields filled from the profile; the two names come from the user row. */
  predicate FromProfile(k: FieldName) {
    k != FirstName && k != LastName
  }

  type Form = map<FieldName, FormValue>

  /** Every text field empty and `showLocation` off. */
  const InitialForm: Form := map k: FieldName | true :: if k == ShowLocation then Flag(false) else Str("")

  /** The user's names, `|| ''`. */
  function WithUser(form: Form, u: LoadedUser): Form {
    form[FirstName := Str(StrOr(u.firstName, ""))][LastName := Str(StrOr(u.lastName, ""))]
  }

  /** The profile's text fields, each `|| ''`, and `showLocation || false`. */
  function ProfileValue(p: LoadedProfile, k: FieldName): FormValue {
    if k == ShowLocation then Flag(p.showLocation == Some(true)) else Str(StrOr(Prop(p, k), ""))
  }

  function WithProfile(form: Form, p: LoadedProfile): Form {
    form + map k: FieldName | FromProfile(k) :: ProfileValue(p, k)
  }

  /** The form after loading: the user's fields when a user was found, then the profile's. */
  function LoadedForm(form: Form, user: Option<LoadedUser>, profile: Option<LoadedProfile>): Form {
    var withUser := if user.Some? then WithUser(form, user.value) else form;
    if profile.Some? then WithProfile(withUser, profile.value) else withUser
  }

  /** Loading keeps the form's set of fields. */
  lemma LoadedFormFields(user: Option<LoadedUser>, profile: Option<LoadedProfile>)
    ensures LoadedForm(InitialForm, user, profile).Keys == InitialForm.Keys == Fields
  {
  }

  /** The user's names are the loaded ones, and '' exactly when missing or empty (or no user was found). */
  lemma UserFieldDefaults(user: Option<LoadedUser>, profile: Option<LoadedProfile>)
    ensures var form := LoadedForm(InitialForm, user, profile);
      form[FirstName] == Str(if user.Some? then StrOr(user.value.firstName, "") else "")
      && form[LastName] == Str(if user.Some? then StrOr(user.value.lastName, "") else "")
      && (form[FirstName] == Str("") <==> user.None? || !StrTruthy(user.value.firstName))
      && (form[LastName] == Str("") <==> user.None? || !StrTruthy(user.value.lastName))
  {
  }

  /**
   * Each profile text field is the loaded value, and '' exactly when that value is missing or
   * empty (or no profile was found); `showLocation` is on only when the profile says `true`.
   */
  lemma ProfileFieldDefaults(user: Option<LoadedUser>, profile: Option<LoadedProfile>)
    ensures var form := LoadedForm(InitialForm, user, profile);
      (forall k :: FromProfile(k) && k != ShowLocation ==>
         form[k] == Str(if profile.Some? then StrOr(Prop(profile.value, k), "") else ""))
      && (forall k :: FromProfile(k) && k != ShowLocation ==>
            (form[k] == Str("") <==> profile.None? || !StrTruthy(Prop(profile.value, k))))
      && form[ShowLocation] == Flag(profile.Some? && profile.value.showLocation == Some(true))
  {
    var form := LoadedForm(InitialForm, user, profile);
    forall k | FromProfile(k) && k != ShowLocation
      ensures form[k] == Str(if profile.Some? then StrOr(Prop(profile.value, k), "") else "")
      ensures form[k] == Str("") <==> profile.None? || !StrTruthy(Prop(profile.value, k))
    {
      ProfileFieldValue(user, profile, k);
    }
    ShowLocationValue(user, profile);
  }

  lemma ProfileFieldValue(user: Option<LoadedUser>, profile: Option<LoadedProfile>, k: FieldName)
    requires FromProfile(k) && k != ShowLocation
    ensures var v := LoadedForm(InitialForm, user, profile)[k];
      v == Str(if profile.Some? then StrOr(Prop(profile.value, k), "") else "")
      && (v == Str("") <==> profile.None? || !StrTruthy(Prop(profile.value, k)))
  {
    IsField(k);
    var base := if user.Some? then WithUser(InitialForm, user.value) else InitialForm;
    assert InitialForm[k] == Str("");
    assert base[k] == Str("");
    if profile.Some? {
      assert LoadedForm(InitialForm, user, profile) == WithProfile(base, profile.value);
      assert WithProfile(base, profile.value)[k] == ProfileValue(profile.value, k);
    } else {
      assert LoadedForm(InitialForm, user, profile) == base;
    }
  }

  lemma ShowLocationValue(user: Option<LoadedUser>, profile: Option<LoadedProfile>)
    ensures LoadedForm(InitialForm, user, profile)[ShowLocation]
      == Flag(profile.Some? && profile.value.showLocation == Some(true))
  {
    IsField(ShowLocation);
  }

  lemma IsField(k: FieldName)
    ensures k in Fields
  {
  }

  /** An input's change event: its name, whether it is a checkbox, its value and its checked state. */
  datatype ChangeEvent = ChangeEvent(name: FieldName, checkbox: bool, value: string, checked: bool)

  /** `handleChange`: the named field takes `checked` for a checkbox and `value` otherwise; nothing else changes. */
  function Changed(form: Form, e: ChangeEvent): (r: Form)
    ensures r.Keys == form.Keys + {e.name}
    ensures r[e.name] == (if e.checkbox then Flag(e.checked) else Str(e.value))
    ensures forall k :: k in form && k != e.name ==> r[k] == form[k]
  {
    form[e.name := if e.checkbox then Flag(e.checked) else Str(e.value)]
  }

  // ---------------------------------------------------------------- location

  /** The suggestion query an input schedules: none for fewer than two characters. */
  function QueryFor(value: string): (q: Option<string>)
    ensures q.None? <==> |value| < 2
    ensures q.Some? ==> q.value == value
  {
    if |value| < 2 then None else Some(value)
  }

  /** An input the page does not send is one the server would answer with no suggestions anyway. */
  lemma WithheldQueryHasNoSuggestions(value: string, search: Geolocation.Search)
    ensures QueryFor(value).None? ==> Geolocation.Suggestions(Some(value), search) == []
  {
  }

  /** `city || town || village || ''` from a reverse-geocoded address. */
  function ReverseCity(a: Geolocation.Address): string {
    StrOr(StrOrStr(a.city, StrOrStr(a.town, a.village)), "")
  }

  /** `state_code || state || ''`. */
  function ReverseState(a: Geolocation.Address): string {
    StrOr(StrOrStr(a.stateCode, a.state), "")
  }

  /** The place name for the device's position: "city, state" when both are known, else whichever is. */
  function ReverseLabel(address: Option<Geolocation.Address>): (name: string)
    ensures address.None? ==> name == ""
    ensures address.Some? ==>
      var city := ReverseCity(address.value);
      var state := ReverseState(address.value);
      (city != "" && state != "" ==> name == city + ", " + state)
      && (city == "" ==> name == state)
      && (state == "" ==> name == city)
  {
    if address.None? then ""
    else
      var city := ReverseCity(address.value);
      var state := ReverseState(address.value);
      if city != "" && state != "" then city + ", " + state
      else if city != "" then city
      else state
  }

  /**
   * The label is empty exactly when the address has no non-empty city, town, village, state code
   * or state. With a city and a two-letter state code it is the very text the server's city
   * suggestions show for that address.
   */
  lemma ReverseLabelSpec(address: Option<Geolocation.Address>)
    ensures ReverseLabel(address) == "" <==>
      address.None?
      || (!StrTruthy(address.value.city) && !StrTruthy(address.value.town) && !StrTruthy(address.value.village)
          && !StrTruthy(address.value.stateCode) && !StrTruthy(address.value.state))
    ensures address.Some? && StrTruthy(address.value.city) && address.value.stateCode.Some?
            && |address.value.stateCode.value| == 2 ==>
      Geolocation.FormatCitySuggestion(Geolocation.Place(address, None, None, None)) == Some(ReverseLabel(address))
  {
    if address.Some? {
      var a := address.value;
      var city := ReverseCity(a);
      var state := ReverseState(a);
      if city != "" && state != "" {
        assert |ReverseLabel(address)| == |city| + 2 + |state|;
      }
    }
  }

  /** `cityName || coordinates`: the place name, or the coordinates as text without one. */
  function LocationText(address: Option<Geolocation.Address>, coordinateText: string): string {
    if ReverseLabel(address) != "" then ReverseLabel(address) else coordinateText
  }

  // ----------------------------------------------------------------- saving

  /** The save request: an update of the existing profile, or a create. */
  datatype SaveTarget = UpdateProfile(profileId: JsId) | CreateProfile

  /** `profile?.profileId ? update : create`. */
  function SaveTargetFor(profile: Option<LoadedProfile>): (t: SaveTarget)
    ensures t.UpdateProfile? <==> profile.Some? && Truthy(profile.value.profileId)
    ensures t.UpdateProfile? ==> t.profileId == profile.value.profileId
  {
    if profile.Some? && Truthy(profile.value.profileId) then UpdateProfile(profile.value.profileId)
    else CreateProfile
  }

  /** The photo upload request: the file, the profile it belongs to and whether it is the primary photo. */
  datatype PhotoUpload = PhotoUpload(file: FileStorage.Upload, profileId: JsId, isPrimary: bool)

  /** The upload `handlePhotoUpload` sends, or none without a file or without a profile id. */
  function PhotoRequest(file: Option<FileStorage.Upload>, profile: Option<LoadedProfile>, photoCount: nat)
    : (r: Option<PhotoUpload>)
    ensures r.None? <==> file.None? || profile.None? || !Truthy(profile.value.profileId)
    ensures r.Some? ==> r.value.file == file.value && r.value.profileId == profile.value.profileId
    ensures r.Some? ==> (r.value.isPrimary <==> photoCount == 0)
  {
    if file.None? || profile.None? || !Truthy(profile.value.profileId) then None
    else Some(PhotoUpload(file.value, profile.value.profileId, photoCount == 0))
  }

  // ------------------------------------------------------------------- page

  const LocationSet := "Location set"
  const SavedStatus := "Profile saved successfully!"
  const SaveFailedStatus := "Error saving profile"
  const LocationSavedStatus := "Location saved successfully!"
  const LocationFailedStatus := "Error saving location"

  class ProfilePage {
    var loading: bool
    var saving: bool
    var user: Option<LoadedUser>
    var profile: Option<LoadedProfile>
    var photos: seq<Photo>
    var related: RelatedLists
    var form: Form
    var suggestions: seq<string>
    var showSuggestions: bool
    var locationStatus: string
    /** The input whose suggestion search is waiting on the debounce timer, if any. */
    var pendingQuery: Option<string>

    constructor()
      ensures loading && !saving && user.None? && profile.None? && photos == []
      ensures related == NoRelated
      ensures form == InitialForm && suggestions == [] && !showSuggestions && locationStatus == ""
      ensures pendingQuery.None?
    {
      loading, saving := true, false;
      user, profile := None, None;
      photos := [];
      related := NoRelated;
      form := InitialForm;
      suggestions, showSuggestions := [], false;
      locationStatus := "";
      pendingQuery := None;
    }

    /**
     * `loadProfile`: when the six lists arrive, the user and profile are the first rows of the
     * current user, the form is filled from them, the photos are those fetched for the profile
     * (kept when that request fails) and each related list is filtered to the current user.
     * When any list fails nothing but `loading` changes.
     */
    method LoadProfile(userId: JsId, fetched: Option<Fetched>, profilePhotos: Option<seq<Photo>>)
      modifies this
      ensures !loading && saving == old(saving)
      ensures suggestions == old(suggestions) && showSuggestions == old(showSuggestions)
      ensures pendingQuery == old(pendingQuery)
      ensures fetched.None? ==>
        user == old(user) && profile == old(profile) && photos == old(photos) && form == old(form)
        && related == old(related) && locationStatus == old(locationStatus)
      ensures fetched.Some? ==>
        var f := fetched.value;
        user == UserOf(f.users, userId)
        && profile == ProfileOf(f.profiles, userId)
        && form == LoadedForm(old(form), user, profile)
        && photos == (if profile.Some? && profilePhotos.Some? then profilePhotos.value else old(photos))
        && locationStatus == (if profile.Some? && NumTruthy(profile.value.latitude) && NumTruthy(profile.value.longitude)
                              then LocationSet else old(locationStatus))
        && related == RelatedOf(f.related, userId)
    {
      loading := false;
      if fetched.None? {
        return;
      }
      var f := fetched.value;
      var currentUser, currentProfile := Lookup(f, userId);
      ShowLoaded(currentUser, currentProfile, profilePhotos, RelatedOf(f.related, userId));
    }

    /** The state updates once the current user's rows are known. */
    method ShowLoaded(currentUser: Option<LoadedUser>, currentProfile: Option<LoadedProfile>,
                      profilePhotos: Option<seq<Photo>>, mine: RelatedLists)
      modifies this
      ensures loading == old(loading) && saving == old(saving)
      ensures suggestions == old(suggestions) && showSuggestions == old(showSuggestions)
      ensures pendingQuery == old(pendingQuery)
      ensures user == currentUser && profile == currentProfile && related == mine
      ensures form == LoadedForm(old(form), currentUser, currentProfile)
      ensures photos == (if currentProfile.Some? && profilePhotos.Some? then profilePhotos.value else old(photos))
      ensures locationStatus ==
        (if currentProfile.Some? && NumTruthy(currentProfile.value.latitude) && NumTruthy(currentProfile.value.longitude)
         then LocationSet else old(locationStatus))
    {
      user, profile := currentUser, currentProfile;
      form := LoadedForm(form, currentUser, currentProfile);
      var located := currentProfile.Some? && NumTruthy(currentProfile.value.latitude)
                     && NumTruthy(currentProfile.value.longitude);
      locationStatus := if located then LocationSet else locationStatus;
      photos := if currentProfile.Some? && profilePhotos.Some? then profilePhotos.value else photos;
      related := mine;
    }

    /** `users.find` and `profiles.find` for the current user. */
    static method Lookup(f: Fetched, userId: JsId) returns (u: Option<LoadedUser>, p: Option<LoadedProfile>)
      ensures u == UserOf(f.users, userId) && p == ProfileOf(f.profiles, userId)
    {
      u := UserOf(f.users, userId);
      p := ProfileOf(f.profiles, userId);
    }

    method HandleChange(e: ChangeEvent)
      modifies this
      ensures form == Changed(old(form), e)
      ensures suggestions == old(suggestions) && showSuggestions == old(showSuggestions)
      ensures pendingQuery == old(pendingQuery) && profile == old(profile)
    {
      form := Changed(form, e);
    }

    /**
     * `handleLocationInput`: the field takes the value and any waiting search is cancelled; an
     * input shorter than two characters hides and clears the suggestions and schedules nothing,
     * a longer one schedules a search for itself and leaves the list as it is.
     */
    method HandleLocationInput(value: string)
      modifies this
      ensures form == old(form)[Location := Str(value)]
      ensures pendingQuery == QueryFor(value)
      ensures |value| < 2 ==> suggestions == [] && !showSuggestions
      ensures |value| >= 2 ==> suggestions == old(suggestions) && showSuggestions == old(showSuggestions)
      ensures profile == old(profile) && locationStatus == old(locationStatus)
    {
      form := form[Location := Str(value)];
      pendingQuery := None;
      if |value| < 2 {
        showSuggestions := false;
        suggestions := [];
        return;
      }
      pendingQuery := Some(value);
    }

    /**
     * The debounce timer fires: the waiting input is searched (`query`); a list answer is shown,
     * a failed search or one that is not a list hides and clears the suggestions.
     */
    method SearchFires(answer: Option<seq<string>>) returns (query: Option<string>)
      modifies this
      ensures query == old(pendingQuery) && pendingQuery.None?
      ensures query.None? ==> suggestions == old(suggestions) && showSuggestions == old(showSuggestions)
      ensures query.Some? ==> suggestions == answer.GetOr([]) && showSuggestions == answer.Some?
      ensures form == old(form) && profile == old(profile)
    {
      query := pendingQuery;
      pendingQuery := None;
      if query.Some? {
        if answer.Some? {
          suggestions := answer.value;
          showSuggestions := true;
        } else {
          suggestions := [];
          showSuggestions := false;
        }
      }
    }

    /** `selectLocation`: the field takes the suggestion, the list is hidden and cleared, no search waits. */
    method SelectLocation(location: string)
      modifies this
      ensures form == old(form)[Location := Str(location)]
      ensures suggestions == [] && !showSuggestions && pendingQuery.None?
      ensures profile == old(profile) && locationStatus == old(locationStatus)
    {
      form := form[Location := Str(location)];
      showSuggestions := false;
      suggestions := [];
      pendingQuery := None;
    }

    /**
     * `usePreciseLocation`: without geolocation, or when the position is refused, only the status
     * changes. `reverse` is the reverse-geocoding answer (none when that request fails, before the
     * field changes); with an answer the field takes the place name, or the coordinates' text,
     * the profile's location is sent when the profile has an id (`profileUpdate`), and `saveOk`
     * says whether the location requests succeeded.
     */
    method UsePreciseLocation(supported: bool, located: bool, reverse: Option<Option<Geolocation.Address>>,
                              coordinateText: string, saveOk: bool)
      returns (profileUpdate: Option<JsId>)
      modifies this
      ensures !supported ==> locationStatus == "Geolocation not supported" && form == old(form) && profileUpdate.None?
      ensures supported && !located ==> locationStatus == "Error getting location" && form == old(form) && profileUpdate.None?
      ensures supported && located && reverse.None? ==>
        locationStatus == LocationFailedStatus && form == old(form) && profileUpdate.None?
      ensures supported && located && reverse.Some? ==>
        form == old(form)[Location := Str(LocationText(reverse.value, coordinateText))]
        && profileUpdate == (if old(profile).Some? && Truthy(old(profile).value.profileId)
                             then Some(old(profile).value.profileId) else None)
        && locationStatus == (if saveOk then LocationSavedStatus else LocationFailedStatus)
      ensures profile == old(profile) && suggestions == old(suggestions) && pendingQuery == old(pendingQuery)
    {
      profileUpdate := None;
      if !supported {
        locationStatus := "Geolocation not supported";
        return;
      }
      locationStatus := "Getting location...";
      if !located {
        locationStatus := "Error getting location";
        return;
      }
      if reverse.None? {
        locationStatus := LocationFailedStatus;
        return;
      }
      var cityName := ReverseLabel(reverse.value);
      var locationText := if cityName != "" then cityName else coordinateText;
      form := form[Location := Str(locationText)];
      if profile.Some? && Truthy(profile.value.profileId) {
        profileUpdate := Some(profile.value.profileId);
      }
      locationStatus := if saveOk then LocationSavedStatus else LocationFailedStatus;
    }

    /**
     * `handleSubmit`: the user row is updated first (`updated`, none when that fails, which ends
     * the save); then the profile is updated when it has an id and created otherwise (`target`),
     * and the saved profile (`saved`) replaces the page's.
     */
    method HandleSubmit(updated: Option<LoadedUser>, saved: Option<LoadedProfile>) returns (target: Option<SaveTarget>)
      modifies this
      ensures !saving && form == old(form)
      ensures updated.None? ==>
        target.None? && user == old(user) && profile == old(profile) && locationStatus == SaveFailedStatus
      ensures updated.Some? ==> user == updated && target == Some(SaveTargetFor(old(profile)))
      ensures updated.Some? && saved.None? ==> profile == old(profile) && locationStatus == SaveFailedStatus
      ensures updated.Some? && saved.Some? ==> profile == saved && locationStatus == SavedStatus
    {
      saving := true;
      target := None;
      if updated.None? {
        locationStatus := SaveFailedStatus;
        saving := false;
        return;
      }
      user := updated;
      if profile.Some? && Truthy(profile.value.profileId) {
        target := Some(UpdateProfile(profile.value.profileId));
      } else {
        target := Some(CreateProfile);
      }
      if saved.None? {
        locationStatus := SaveFailedStatus;
      } else {
        profile := saved;
        locationStatus := SavedStatus;
      }
      saving := false;
    }

    /** `handlePhotoUpload`: the upload sent, if any; the page reloads afterwards through `LoadProfile`. */
    method HandlePhotoUpload(file: Option<FileStorage.Upload>) returns (upload: Option<PhotoUpload>)
      ensures upload == PhotoRequest(file, profile, |photos|)
    {
      if file.None? || profile.None? || !Truthy(profile.value.profileId) {
        return None;
      }
      upload := Some(PhotoUpload(file.value, profile.value.profileId, |photos| == 0));
    }
  }

  /** A profile's first photo is its primary one, and no later one is. */
  lemma OnlyFirstPhotoPrimary(file: FileStorage.Upload, profile: LoadedProfile, photos: seq<Photo>)
    requires Truthy(profile.profileId)
    ensures PhotoRequest(Some(file), Some(profile), |photos|).Some?
    ensures PhotoRequest(Some(file), Some(profile), |photos|).value.isPrimary <==> photos == []
  {
  }
}
