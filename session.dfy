/**
 * The session both front ends keep: the logged-in user, a loading flag, and a
 * copy of the user under the storage key "currentUser" (the browser's local
 * storage on the web, the device's async storage on mobile).
 */
module Session {
  import opened Wrappers
  import opened Js

  /** The user object the session holds; only its ids matter here. */
  datatype SessionUser = SessionUser(userId: JsId, id: JsId, email: JsStr, firstName: JsStr)

  datatype AuthError = OutsideProvider

  /** `useAuth()`: the context, or an error when used outside an `AuthProvider`. */
  function UseAuth<C>(context: Option<C>): (r: Result<C, AuthError>)
    ensures r.Ok? <==> context.Some?
    ensures r.Ok? ==> r.value == context.value
  {
    if context.None? then Err(OutsideProvider) else Ok(context.value)
  }

  /** The mobile `getCurrentUserId`: `user.userId || user.id || null`, null without a user. */
  function CurrentUserId(user: Option<SessionUser>): (r: JsId)
    ensures r == Null || Truthy(r)
    ensures user.None? ==> r == Null
    ensures user.Some? && Truthy(user.value.userId) ==> r == user.value.userId
    ensures user.Some? && !Truthy(user.value.userId) && Truthy(user.value.id) ==> r == user.value.id
    ensures user.Some? && !Truthy(user.value.userId) && !Truthy(user.value.id) ==> r == Null
  {
    if user.Some? then Or(user.value.userId, Or(user.value.id, Null)) else Null
  }

  /** The web `getCurrentUserId`: the id only when the user has a truthy `userId || id`. */
  function WebCurrentUserId(user: Option<SessionUser>): JsId {
    if user.Some? && Truthy(Or(user.value.userId, user.value.id)) then
      Or(Or(user.value.userId, user.value.id), Null)
    else Null
  }

  /** The two front ends answer the same id for every session state. */
  lemma CurrentUserIdsAgree(user: Option<SessionUser>)
    ensures WebCurrentUserId(user) == CurrentUserId(user)
  {
  }

  /** The web session. */
  class WebAuth {
    var user: Option<SessionUser>
    var loading: bool
    var stored: Option<SessionUser>

    constructor(stored: Option<SessionUser>)
      ensures user.None? && loading && this.stored == stored
    {
      user := None;
      loading := true;
      this.stored := stored;
    }

    /** The startup effect: any stored user is discarded and the session starts logged out. */
    method Start()
      modifies this
      ensures user == old(user) && !loading && stored.None?
    {
      stored := None;
      loading := false;
    }

    method Login(userData: SessionUser)
      modifies this
      ensures user == Some(userData) && stored == Some(userData) && loading == old(loading)
    {
      user := Some(userData);
      stored := Some(userData);
    }

    method Logout()
      modifies this
      ensures user.None? && stored.None? && loading == old(loading)
    {
      stored := None;
      user := None;
    }

    method UpdateUser(userData: SessionUser)
      modifies this
      ensures user == Some(userData) && stored == Some(userData) && loading == old(loading)
    {
      user := Some(userData);
      stored := Some(userData);
    }

    function GetCurrentUserId(): JsId
      reads this
    {
      WebCurrentUserId(user)
    }

    predicate IsAuthenticated()
      reads this
    {
      user.Some?
    }
  }

  /**
   * The mobile session. Storage calls can fail; each `...Ok` argument says whether that
   * call succeeded.
   */
  class MobileAuth {
    var user: Option<SessionUser>
    var loading: bool
    var stored: Option<SessionUser>

    constructor(stored: Option<SessionUser>)
      ensures user.None? && loading && this.stored == stored
    {
      user := None;
      loading := true;
      this.stored := stored;
    }

    /**
     * `loadUser`: the stored user is removed (a failed removal is retried once); the session
     * stays logged out and loading ends whatever storage does.
     */
    method LoadUser(removeOk: bool, retryOk: bool)
      modifies this
      ensures user == old(user) && !loading
      ensures stored == (if removeOk || retryOk then None else old(stored))
    {
      if removeOk {
        stored := None;
      } else if retryOk {
        stored := None;
      }
      loading := false;
    }

    /** `login`: the user is set before storing; `ok` is false when storing failed. */
    method Login(userData: SessionUser, storeOk: bool) returns (ok: bool)
      modifies this
      ensures user == Some(userData) && ok == storeOk && loading == old(loading)
      ensures stored == (if storeOk then Some(userData) else old(stored))
    {
      user := Some(userData);
      if storeOk {
        stored := Some(userData);
      }
      ok := storeOk;
    }

    /** `logout`: the user is cleared even when removing the stored copy fails. */
    method Logout(removeOk: bool)
      modifies this
      ensures user.None? && loading == old(loading)
      ensures stored == (if removeOk then None else old(stored))
    {
      user := None;
      if removeOk {
        stored := None;
      } else {
        user := None;
      }
    }

    method UpdateUser(userData: SessionUser, storeOk: bool) returns (ok: bool)
      modifies this
      ensures user == Some(userData) && ok == storeOk && loading == old(loading)
      ensures stored == (if storeOk then Some(userData) else old(stored))
    {
      user := Some(userData);
      if storeOk {
        stored := Some(userData);
      }
      ok := storeOk;
    }

    function GetCurrentUserId(): JsId
      reads this
    {
      CurrentUserId(user)
    }

    predicate IsAuthenticated()
      reads this
    {
      user.Some?
    }
  }

  /** A session knows an id exactly when its user carries a truthy `userId` or `id`. */
  lemma IdIffIdentifiedUser(user: Option<SessionUser>)
    ensures CurrentUserId(user) != Null <==>
      user.Some? && (Truthy(user.value.userId) || Truthy(user.value.id))
  {
  }
}
