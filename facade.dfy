/** The session machine (auth.facade.ts): one `AuthState` value held in a
    behaviour subject, recovered from storage at construction, replaced by
    login, refresh and logout, and written through to storage on every change.
    Each `Date.now()` read becomes the parameter `now`; the API's answer to a
    login or refresh request is a parameter of the method that consumes it. */
module Facade {
  import opened Common
  import opened Session
  import opened Storage

  /** The body of a successful login or refresh answer (`access_token`,
      `refresh_token`, `expires_in`, `refresh_expires_in`; lifetimes in seconds). */
  datatype TokenResponse = TokenResponse(
    accessToken: string,
    refreshToken: string,
    expiresIn: int,
    refreshExpiresIn: int)

  /** The record a login or refresh answer received at `now` publishes. */
  function SessionFrom(response: TokenResponse, now: int): (s: AuthState)
    ensures s.isAuthenticated
    ensures s.accessToken == Some(response.accessToken) && s.refreshToken == Some(response.refreshToken)
    ensures s.expiresAt == Some(now + response.expiresIn * 1000)
    ensures s.refreshExpiresAt == Some(now + response.refreshExpiresIn * 1000)
  {
    AuthState(true, Some(response.accessToken), Some(response.refreshToken),
              Some(now + response.expiresIn * 1000), Some(now + response.refreshExpiresIn * 1000))
  }

  // ---------------------------------------------------------------------------
  // Startup recovery (`loadInitialState`)

  /** The stored refresh expiry is set and already past. */
  predicate RefreshExpired(s: AuthState, now: int) {
    TruthyNumber(s.refreshExpiresAt) && s.refreshExpiresAt.value < now
  }

  /** `accessTokenValid`. */
  predicate AccessTokenValid(s: AuthState, now: int) {
    TruthyText(s.accessToken) && TruthyNumber(s.expiresAt) && s.expiresAt.value > now
  }

  /** `refreshTokenValid`. */
  predicate RefreshTokenValid(s: AuthState, now: int) {
    TruthyText(s.refreshToken) && (!TruthyNumber(s.refreshExpiresAt) || s.refreshExpiresAt.value > now)
  }

  /** What startup publishes, and whether it wipes the stored copy. */
  datatype Recovery = Recovery(state: AuthState, clearsStorage: bool)

  function Recover(stored: Option<AuthState>, now: int): (r: Recovery)
    // nothing stored: the anonymous record, storage left alone
    ensures stored.None? ==> r == Recovery(Anonymous, false)
    // storage is wiped exactly when the stored refresh expiry is past
    ensures r.clearsStorage <==> stored.Some? && RefreshExpired(stored.value, now)
    ensures r.clearsStorage ==> r.state == Anonymous
    // otherwise the refresh half is copied and the access half kept only while valid
    ensures stored.Some? && !r.clearsStorage ==>
      && r.state.refreshToken == stored.value.refreshToken
      && r.state.refreshExpiresAt == stored.value.refreshExpiresAt
      && (AccessTokenValid(stored.value, now) ==>
            r.state.accessToken == stored.value.accessToken && r.state.expiresAt == stored.value.expiresAt)
      && (!AccessTokenValid(stored.value, now) ==> r.state.accessToken == None && r.state.expiresAt == None)
    // authenticated exactly when a usable refresh token was stored
    ensures r.state.isAuthenticated <==> stored.Some? && RefreshTokenValid(stored.value, now)
    // what is published never holds an expired or empty access token
    ensures r.state.accessToken.Some? ==>
      r.state.accessToken.value != "" && r.state.expiresAt.Some? && r.state.expiresAt.value > now
    ensures r.state.accessToken.None? <==> r.state.expiresAt.None?
  {
    match stored
    case None => Recovery(Anonymous, false)
    case Some(s) =>
      if RefreshExpired(s, now) then Recovery(Anonymous, true)
      else
        var accessValid := AccessTokenValid(s, now);
        Recovery(AuthState(
          RefreshTokenValid(s, now),
          if accessValid then s.accessToken else None,
          s.refreshToken,
          if accessValid then s.expiresAt else None,
          s.refreshExpiresAt), false)
  }

  /** At the boundary `refreshExpiresAt == now` the session is not
      authenticated, yet the stored copy is kept. */
  lemma RecoverAtRefreshBoundary(s: AuthState, now: int)
    requires s.refreshExpiresAt == Some(now) && now != 0
    ensures !Recover(Some(s), now).clearsStorage
    ensures !Recover(Some(s), now).state.isAuthenticated
    ensures Recover(Some(s), now).state.refreshExpiresAt == Some(now)
  {
  }

  /** Recovering what recovery published changes nothing and wipes nothing. */
  lemma RecoverIdempotent(stored: Option<AuthState>, now: int)
    ensures var r := Recover(stored, now);
      Recover(Some(r.state), now) == Recovery(r.state, false)
  {
    var r := Recover(stored, now);
    if stored.Some? && !r.clearsStorage {
      var s := stored.value;
      assert RefreshExpired(r.state, now) == RefreshExpired(s, now);
      assert RefreshTokenValid(r.state, now) == RefreshTokenValid(s, now);
      assert AccessTokenValid(r.state, now) == AccessTokenValid(s, now);
    }
  }

  /** A session written by login and read back before either token expires
      comes back exactly as it was published. */
  lemma RecoverLoggedInSession(response: TokenResponse, issuedAt: int, now: int)
    requires response.accessToken != "" && response.refreshToken != ""
    requires var s := SessionFrom(response, issuedAt);
      s.expiresAt.value > now && s.expiresAt.value != 0
      && s.refreshExpiresAt.value > now && s.refreshExpiresAt.value != 0
    ensures Recover(Some(SessionFrom(response, issuedAt)), now)
         == Recovery(SessionFrom(response, issuedAt), false)
  {
  }

  // ---------------------------------------------------------------------------
  // Login error translation

  const BadCredentials := "Usu\U{00E1}rio ou senha incorretos."

  /** A string error that mentions the credentials ("não autorizado" or
      "credenciais"), in any letter case. */
  predicate IsCredentialError(e: Thrown) {
    e.Text? && (Contains(ToLower(e.text), "n\U{00E3}o autorizado") || Contains(ToLower(e.text), "credenciais"))
  }

  /** The `catchError` of `login`: credential errors become one fixed message,
      everything else is re-raised as it came. */
  function LoginError(e: Thrown): (r: Thrown)
    ensures IsCredentialError(e) ==> r == Text(BadCredentials)
    ensures !IsCredentialError(e) ==> r == e
    ensures !e.Text? ==> r == e
  {
    if IsCredentialError(e) then Text(BadCredentials) else e
  }

  /** Lower-casing twice is lower-casing once. */
  lemma ToLowerIdempotent(s: string)
    ensures ToLower(ToLower(s)) == ToLower(s)
  {
    var a, b := ToLower(ToLower(s)), ToLower(s);
    assert forall i :: 0 <= i < |a| ==> a[i] == b[i];
  }

  /** The translation ignores letter case: an error and its lower-case form
      are recognised alike. */
  lemma CredentialErrorIgnoresCase(s: string)
    ensures IsCredentialError(Text(s)) <==> IsCredentialError(Text(ToLower(s)))
  {
    ToLowerIdempotent(s);
  }

  /** A message that opens with "não autorizado", in any letter case, is a
      credential error. */
  lemma NotAuthorizedLeadIsCredentialError(head: string, tail: string)
    requires ToLower(head) == "n\U{00E3}o autorizado"
    ensures IsCredentialError(Text(head + tail))
    ensures LoginError(Text(head + tail)) == Text(BadCredentials)
  {
    LoweredContainsLoweredHead(head, tail);
  }

  // ---------------------------------------------------------------------------
  // The facade object

  /** What `refreshToken()` does before any answer arrives: either it has
      already answered (`of(false)`) or it has asked the API to refresh with
      the given refresh token. */
  datatype RefreshStart = Answered(ok: bool) | Requested(refreshToken: string)

  const LoginRoute := Navigation(["/login"], None)

  class AuthFacade {
    const storage: AuthStorageService
    const router: Router
    /** `stateSubject.value`. */
    var state: AuthState
    /** Every value `stateSubject` has carried, oldest first. */
    var published: seq<AuthState>

    /** The subject's current value is the last one it carried. */
    ghost predicate Valid()
      reads this
    {
      published != [] && published[|published| - 1] == state
    }

    /** The stored copy equals the published state (when storage works). */
    ghost predicate Mirrored()
      reads this, storage, storage.storage
    {
      storage.Usable() ==> storage.Load() == Some(state)
    }

    /** Construction runs `loadInitialState` against the stored copy. */
    constructor (storage: AuthStorageService, router: Router, now: int)
      modifies storage, storage.storage
      ensures this.storage == storage && this.router == router && Valid()
      ensures var r := Recover(old(storage.Load()), now);
        && state == r.state && published == [r.state]
        && storage.saveLog == old(storage.saveLog)
        && storage.clearCount == old(storage.clearCount) + (if r.clearsStorage then 1 else 0)
        && (r.clearsStorage ==> storage.Load() == None)
      ensures storage.storage != null ==> storage.storage.throwing == old(storage.storage.throwing)
      ensures var r := Recover(old(storage.Load()), now);
        !r.clearsStorage && storage.storage != null ==> storage.storage.items == old(storage.storage.items)
    {
      var r := Recover(storage.Load(), now);
      if r.clearsStorage {
        storage.Clear();
      }
      this.storage := storage;
      this.router := router;
      state := r.state;
      published := [r.state];
    }

    /** `isAuthenticated` getter. */
    function IsAuthenticated(): (b: bool)
      reads this
      requires Valid()
      ensures b == published[|published| - 1].isAuthenticated
    {
      state.isAuthenticated
    }

    /** `accessToken` getter. */
    function AccessToken(): (t: Option<string>)
      reads this
      requires Valid()
      ensures t == published[|published| - 1].accessToken
    {
      state.accessToken
    }

    /** `updateState`: publish, then write through. */
    method UpdateState(newState: AuthState)
      requires Valid()
      modifies this`state, this`published, storage, storage.storage
      ensures Valid() && Mirrored()
      ensures state == newState && published == old(published) + [newState]
      ensures storage.saveLog == old(storage.saveLog) + [newState]
      ensures storage.clearCount == old(storage.clearCount)
      ensures storage.storage != null ==> storage.storage.throwing == old(storage.storage.throwing)
    {
      state := newState;
      published := published + [newState];
      storage.Save(newState);
    }

    /** `logout`: publish and store the anonymous record, then go to the login
        page. */
    method Logout()
      requires Valid()
      modifies this, router, storage, storage.storage
      ensures Valid() && Mirrored()
      ensures state == Anonymous && published == old(published) + [Anonymous]
      ensures storage.saveLog == old(storage.saveLog) + [Anonymous]
      ensures storage.clearCount == old(storage.clearCount)
      ensures router.navigations == old(router.navigations) + [LoginRoute]
      ensures storage.storage != null ==> storage.storage.throwing == old(storage.storage.throwing)
    {
      UpdateState(Anonymous);
      router.Navigate(LoginRoute);
    }

    /** `login`, from the point where the API has answered at time `now`. */
    method Login(response: Result<TokenResponse, Thrown>, now: int) returns (r: Result<bool, Thrown>)
      requires Valid()
      modifies this, router, storage, storage.storage
      ensures Valid()
      ensures router.navigations == old(router.navigations)
      ensures storage.clearCount == old(storage.clearCount)
      ensures storage.storage != null ==> storage.storage.throwing == old(storage.storage.throwing)
      // success publishes and stores the new session exactly once
      ensures response.Success? ==>
        && r == Success(true)
        && state == SessionFrom(response.value, now) && Mirrored()
        && published == old(published) + [state]
        && storage.saveLog == old(storage.saveLog) + [state]
      // failure touches neither the state nor the storage
      ensures response.Failure? ==>
        && r == Failure(LoginError(response.error))
        && state == old(state) && published == old(published)
        && storage.saveLog == old(storage.saveLog)
        && (storage.storage != null ==> storage.storage.items == old(storage.storage.items))
    {
      match response
      case Success(body) =>
        UpdateState(SessionFrom(body, now));
        r := Success(true);
      case Failure(e) =>
        r := Failure(LoginError(e));
    }

    /** `refreshToken()` up to the API call: without a refresh token it answers
        false at once; with an expired one it logs out and answers false;
        otherwise it asks the API with the current refresh token. */
    method RefreshToken(now: int) returns (r: RefreshStart)
      requires Valid()
      modifies this, router, storage, storage.storage
      ensures Valid()
      ensures storage.clearCount == old(storage.clearCount)
      ensures storage.storage != null ==> storage.storage.throwing == old(storage.storage.throwing)
      ensures !TruthyText(old(state.refreshToken)) ==>
        && r == Answered(false)
        && state == old(state) && published == old(published) && router.navigations == old(router.navigations)
        && storage.saveLog == old(storage.saveLog)
      ensures TruthyText(old(state.refreshToken)) && RefreshExpired(old(state), now) ==>
        && r == Answered(false)
        && state == Anonymous && published == old(published) + [Anonymous] && Mirrored()
        && storage.saveLog == old(storage.saveLog) + [Anonymous]
        && router.navigations == old(router.navigations) + [LoginRoute]
      ensures TruthyText(old(state.refreshToken)) && !RefreshExpired(old(state), now) ==>
        && r == Requested(old(state.refreshToken.value))
        && state == old(state) && published == old(published) && router.navigations == old(router.navigations)
        && storage.saveLog == old(storage.saveLog)
      ensures r.Answered? ==> !r.ok
    {
      if !TruthyText(state.refreshToken) {
        r := Answered(false);
      } else if RefreshExpired(state, now) {
        Logout();
        r := Answered(false);
      } else {
        r := Requested(state.refreshToken.value);
      }
    }

    /** The rest of `refreshToken()` once the API has answered at `now`:
        success publishes the new session, failure logs out and re-raises. */
    method CompleteRefresh(response: Result<TokenResponse, Thrown>, now: int) returns (r: Result<bool, Thrown>)
      requires Valid()
      modifies this, router, storage, storage.storage
      ensures Valid() && Mirrored()
      ensures storage.clearCount == old(storage.clearCount)
      ensures storage.storage != null ==> storage.storage.throwing == old(storage.storage.throwing)
      ensures response.Success? ==>
        && r == Success(true)
        && state == SessionFrom(response.value, now)
        && published == old(published) + [state]
        && storage.saveLog == old(storage.saveLog) + [state]
        && router.navigations == old(router.navigations)
      ensures response.Failure? ==>
        && r == Failure(response.error)
        && state == Anonymous && published == old(published) + [Anonymous]
        && storage.saveLog == old(storage.saveLog) + [Anonymous]
        && router.navigations == old(router.navigations) + [LoginRoute]
    {
      match response
      case Success(body) =>
        UpdateState(SessionFrom(body, now));
        r := Success(true);
      case Failure(e) =>
        Logout();
        r := Failure(e);
    }
  }
}
