/**
 * The authentication context: the bearer token, the current user, the
 * loading flag, the token kept in browser storage and the Authorization
 * header of the HTTP client. The decoded expiry of a stored token, the
 * clock and the result of the profile request are parameters.
 */
module Auth {
  import opened Common
  import opened Domain
  import Constants

  /** The browser's local storage, key to text. */
  type Storage = map<string, string>

  /** `localStorage.getItem('token')`. */
  function StoredToken(storage: Storage): (r: Option<string>)
    ensures r.Some? <==> Constants.LocalStorageTokenKey in storage
    ensures r.Some? ==> r.value == storage[Constants.LocalStorageTokenKey]
  {
    if Constants.LocalStorageTokenKey in storage then Some(storage[Constants.LocalStorageTokenKey]) else None
  }

  /** `applyTokenToApiClient(t)`: the header the client sends after the call. */
  function BearerHeader(t: Option<string>): (r: Option<string>)
    ensures r.Some? <==> Truthy(t)
    ensures r.Some? ==> r.value == "Bearer " + t.value
  {
    if Truthy(t) then Some("Bearer " + t.value) else None
  }

  /** `prev ? { ...prev, ...update } : update`. */
  function MergeUser(prev: Option<Record>, update: Record): (r: Record)
    ensures prev.None? ==> r == update
    ensures prev.Some? ==> r.Keys == prev.value.Keys + update.Keys
    ensures forall k :: k in update ==> k in r && r[k] == update[k]
    ensures prev.Some? ==> forall k :: k in prev.value && k !in update ==> r[k] == prev.value[k]
  {
    if prev.None? then update else prev.value + update
  }

  /** Applying the same update twice is the same as applying it once. */
  lemma MergeUserIdempotent(prev: Option<Record>, update: Record)
    ensures MergeUser(Some(MergeUser(prev, update)), update) == MergeUser(prev, update)
  {
  }

  /** Only the updated fields change; an empty update keeps the user as it was. */
  lemma MergeUserEmptyUpdate(prev: Record)
    ensures MergeUser(Some(prev), map[]) == prev
  {
  }

  /** Result of `getUserProfile()`. */
  datatype ProfileFetch = ProfileLoaded(profile: Record) | ProfileFailed

  /** The promise `login` returns: rejected, or resolved with the fetched user or null. */
  datatype LoginResult = LoginRejected(reason: string) | LoginResolved(user: Option<Record>)

  const InvalidLoginTokenText: string := "Invalid token provided for login."

  class AuthProvider {
    var token: Option<string>
    var currentUser: Option<Record>
    var loading: bool
    var storage: Storage
    /** The Authorization header the HTTP client sends by default. */
    var authHeader: Option<string>
    /** Whether the initial-load effect has run. */
    ghost var initialized: bool

    /**
     * The token state mirrors the stored token, and once the initial load has
     * run the client sends exactly the header for the token in state.
     */
    ghost predicate Valid()
      reads this
    {
      TokenStored() && (initialized ==> HeaderMatches())
    }

    /** The token in state is the one in storage. */
    ghost predicate TokenStored()
      reads this
    {
      token == StoredToken(storage)
    }

    /** The client sends exactly the header for the token in state. */
    ghost predicate HeaderMatches()
      reads this
    {
      authHeader == BearerHeader(token)
    }

    /** First render: the token is read from storage, no user yet, loading. */
    constructor(storage: Storage, authHeader: Option<string>)
      ensures this.storage == storage && this.authHeader == authHeader
      ensures token == StoredToken(storage) && currentUser.None? && loading
      ensures !initialized && Valid()
    {
      this.storage := storage;
      this.authHeader := authHeader;
      token := StoredToken(storage);
      currentUser := None;
      loading := true;
      initialized := false;
    }

    /** `applyTokenToApiClient(t)`. */
    method ApplyTokenToApiClient(t: Option<string>)
      modifies this
      ensures authHeader == BearerHeader(t)
      ensures token == old(token) && currentUser == old(currentUser) && loading == old(loading)
      ensures storage == old(storage) && initialized == old(initialized)
    {
      if Truthy(t) {
        authHeader := Some("Bearer " + t.value);
      } else {
        authHeader := None;
      }
    }

    /**
     * `fetchCurrentUserDetails(t)`: without a token, no user and not loading;
     * otherwise the header is set and the profile requested; on success it
     * becomes the user, on failure the token is dropped from state, storage
     * and header. Loading ends on every path.
     */
    method FetchCurrentUserDetails(t: Option<string>, fetch: ProfileFetch) returns (user: Option<Record>)
      requires TokenStored()
      modifies this
      ensures TokenStored() && initialized == old(initialized) && !loading
      ensures t == old(token) || (!Truthy(t) && !Truthy(old(token))) ==> HeaderMatches()
      ensures !Truthy(t) ==>
        user.None? && currentUser.None? && authHeader.None?
        && token == old(token) && storage == old(storage)
      ensures Truthy(t) && fetch.ProfileLoaded? ==>
        user == Some(fetch.profile) && currentUser == user
        && authHeader == BearerHeader(t) && token == old(token) && storage == old(storage)
      ensures Truthy(t) && fetch.ProfileFailed? ==>
        user.None? && currentUser.None? && token.None? && authHeader.None?
        && storage == old(storage) - {Constants.LocalStorageTokenKey}
    {
      if !Truthy(t) {
        currentUser := None;
        ApplyTokenToApiClient(None);
        loading := false;
        return None;
      }
      ApplyTokenToApiClient(t);
      match fetch
      case ProfileLoaded(profile) =>
        currentUser := Some(profile);
        loading := false;
        return Some(profile);
      case ProfileFailed =>
        currentUser := None;
        storage := storage - {Constants.LocalStorageTokenKey};
        token := None;
        ApplyTokenToApiClient(None);
        loading := false;
        return None;
    }

    /**
     * The mount effect. `decodedExp` is the `exp` claim of the stored token,
     * None when it cannot be decoded; a token whose `exp * 1000` is not after
     * the clock is treated like an undecodable one: removed everywhere.
     */
    method InitialLoad(decodedExp: Option<int>, nowMs: int, fetch: ProfileFetch)
      requires Valid() && !initialized
      modifies this
      ensures Valid() && initialized && !loading
      ensures Truthy(old(token)) && decodedExp.Some? && decodedExp.value * 1000 > nowMs ==>
        (fetch.ProfileLoaded? ==>
          token == old(token) && storage == old(storage) && currentUser == Some(fetch.profile))
        && (fetch.ProfileFailed? ==>
          token.None? && currentUser.None? && storage == old(storage) - {Constants.LocalStorageTokenKey})
      ensures Truthy(old(token)) && !(decodedExp.Some? && decodedExp.value * 1000 > nowMs) ==>
        token.None? && currentUser.None? && authHeader.None?
        && storage == old(storage) - {Constants.LocalStorageTokenKey}
      ensures !Truthy(old(token)) ==>
        token == old(token) && currentUser.None? && authHeader.None? && storage == old(storage)
    {
      initialized := true;
      var initialToken := StoredToken(storage);
      if Truthy(initialToken) {
        if decodedExp.Some? && decodedExp.value * 1000 > nowMs {
          token := initialToken;
          var _ := FetchCurrentUserDetails(initialToken, fetch);
        } else {
          storage := storage - {Constants.LocalStorageTokenKey};
          token := None;
          currentUser := None;
          ApplyTokenToApiClient(None);
          loading := false;
        }
      } else {
        ApplyTokenToApiClient(None);
        currentUser := None;
        loading := false;
      }
    }

    /**
     * `login(newToken)`: a falsy token is rejected with nothing changed;
     * otherwise the token is stored and put in state, loading starts, and
     * the result is that of fetching the user with it.
     */
    method Login(newToken: Option<string>, fetch: ProfileFetch) returns (r: LoginResult)
      requires Valid() && initialized
      modifies this
      ensures Valid() && initialized
      ensures !Truthy(newToken) ==>
        r == LoginRejected(InvalidLoginTokenText)
        && token == old(token) && currentUser == old(currentUser) && loading == old(loading)
        && storage == old(storage) && authHeader == old(authHeader)
      ensures Truthy(newToken) && fetch.ProfileLoaded? ==>
        r == LoginResolved(Some(fetch.profile)) && currentUser == Some(fetch.profile)
        && token == newToken && storage == old(storage)[Constants.LocalStorageTokenKey := newToken.value]
        && authHeader == BearerHeader(newToken) && !loading
      ensures Truthy(newToken) && fetch.ProfileFailed? ==>
        r == LoginResolved(None) && currentUser.None? && token.None? && authHeader.None?
        && storage == old(storage) - {Constants.LocalStorageTokenKey} && !loading
    {
      if !Truthy(newToken) {
        return LoginRejected(InvalidLoginTokenText);
      }
      storage := storage[Constants.LocalStorageTokenKey := newToken.value];
      token := newToken;
      loading := true;
      var user := FetchCurrentUserDetails(newToken, fetch);
      r := LoginResolved(user);
      assert storage == old(storage)[Constants.LocalStorageTokenKey := newToken.value] - {Constants.LocalStorageTokenKey}
        ==> storage == old(storage) - {Constants.LocalStorageTokenKey};
    }

    /** `logout()`: the token leaves storage, state and header; the user is cleared; loading is untouched. */
    method Logout()
      requires Valid()
      modifies this
      ensures Valid() && initialized == old(initialized)
      ensures token.None? && currentUser.None? && authHeader.None?
      ensures storage == old(storage) - {Constants.LocalStorageTokenKey} && loading == old(loading)
    {
      storage := storage - {Constants.LocalStorageTokenKey};
      token := None;
      currentUser := None;
      ApplyTokenToApiClient(None);
    }

    /** `updateUserContext(update)`: the given fields override, the rest are kept. */
    method UpdateUserContext(update: Record)
      requires Valid()
      modifies this
      ensures Valid() && initialized == old(initialized)
      ensures currentUser == Some(MergeUser(old(currentUser), update))
      ensures token == old(token) && storage == old(storage) && authHeader == old(authHeader) && loading == old(loading)
    {
      currentUser := Some(MergeUser(currentUser, update));
    }
  }
}
