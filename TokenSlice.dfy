/**
 * The `token` slice of the Redux store: the access and refresh tokens, the
 * authentication flag, and the state of the `verifyToken` request, kept in
 * step with the browser's `localStorage`.
 */
module TokenSlice {
  import opened Js

  const AccessTokenKey: string := "accessToken"
  const RefreshTokenKey: string := "refreshToken"

  /** `localStorage.getItem(key)`: `null` when the key was never set. */
  function StoredItem(items: map<string, string>, key: string): Option<string>
  {
    if key in items then Some(items[key]) else None
  }

  /** The browser's `localStorage`, shared by the slice and the API layer. */
  class LocalStorage {
    var items: map<string, string>

    constructor (items: map<string, string>)
      ensures this.items == items
    {
      this.items := items;
    }

    function GetItem(key: string): (r: Option<string>)
      reads this
    {
      StoredItem(items, key)
    }

    method SetItem(key: string, value: string)
      modifies this
      ensures items == old(items)[key := value]
    {
      items := items[key := value];
    }

    method RemoveItem(key: string)
      modifies this
      ensures items == old(items) - {key}
    {
      items := items - {key};
    }
  }

  /** The slice state together with the contents of `localStorage`. */
  datatype Session = Session(accessToken: Option<string>, refreshToken: Option<string>, isAuthenticated: bool,
                             loading: bool, error: Option<string>, stored: map<string, string>)

  /** The initial state, read from storage. */
  function Initial(stored: map<string, string>): Session
  {
    var access := StoredItem(stored, AccessTokenKey);
    Session(access, StoredItem(stored, RefreshTokenKey), Truthy(access), false, None, stored)
  }

  /** `localStorage.setItem(key, value)` when `value` is truthy, nothing otherwise. */
  function StoreIfTruthy(stored: map<string, string>, key: string, value: Option<string>): map<string, string>
  {
    if Truthy(value) then stored[key := value.value] else stored
  }

  /** `setTokens({accessToken, refreshToken})`. */
  function WithTokens(s: Session, access: Option<string>, refresh: Option<string>): Session
  {
    s.(accessToken := access, refreshToken := refresh, isAuthenticated := Truthy(access),
       stored := StoreIfTruthy(StoreIfTruthy(s.stored, AccessTokenKey, access), RefreshTokenKey, refresh))
  }

  /** `logoutUser()` and `clearTokens()`: both tokens gone from the state and from storage. */
  function Cleared(s: Session): Session
  {
    s.(accessToken := None, refreshToken := None, isAuthenticated := false,
       stored := s.stored - {AccessTokenKey} - {RefreshTokenKey})
  }

  /** `verifyToken.pending`. */
  function Pending(s: Session): Session
  {
    s.(loading := true, error := None)
  }

  /** `verifyToken.fulfilled`: the tokens are left as they are. */
  function Fulfilled(s: Session): Session
  {
    s.(loading := false, isAuthenticated := true)
  }

  /** `verifyToken.rejected` with the rejection's payload. */
  function Rejected(s: Session, payload: Option<string>): Session
  {
    Cleared(s).(loading := false, error := payload)
  }

  /** Signed out: no token in the state or in storage, and not authenticated. */
  predicate SignedOut(s: Session)
  {
    s.accessToken.None? && s.refreshToken.None? && !s.isAuthenticated
    && AccessTokenKey !in s.stored && RefreshTokenKey !in s.stored
  }

  /** The starting state is authenticated exactly when storage holds a non-empty access token. */
  lemma InitialAuthentication(stored: map<string, string>)
    ensures Initial(stored).isAuthenticated <==> AccessTokenKey in stored && stored[AccessTokenKey] != ""
    ensures !Initial(stored).loading && Initial(stored).error.None?
  {
  }

  /** `setTokens` sets both tokens as given, authenticates exactly when the access token is
      truthy, writes a storage key only for a truthy token, and leaves all other keys alone. */
  lemma WithTokensFacts(s: Session, access: Option<string>, refresh: Option<string>, key: string)
    ensures WithTokens(s, access, refresh).accessToken == access && WithTokens(s, access, refresh).refreshToken == refresh
    ensures WithTokens(s, access, refresh).isAuthenticated <==> Truthy(access)
    ensures StoredItem(WithTokens(s, access, refresh).stored, AccessTokenKey) ==
      if Truthy(access) then access else StoredItem(s.stored, AccessTokenKey)
    ensures StoredItem(WithTokens(s, access, refresh).stored, RefreshTokenKey) ==
      if Truthy(refresh) then refresh else StoredItem(s.stored, RefreshTokenKey)
    ensures key != AccessTokenKey && key != RefreshTokenKey ==>
      StoredItem(WithTokens(s, access, refresh).stored, key) == StoredItem(s.stored, key)
    ensures WithTokens(s, access, refresh).loading == s.loading && WithTokens(s, access, refresh).error == s.error
  {
  }

  /** A reload after `setTokens` with a truthy access token starts authenticated with that
      token. */
  lemma ReloadAfterSetTokens(s: Session, access: Option<string>, refresh: Option<string>)
    requires Truthy(access)
    ensures Initial(WithTokens(s, access, refresh).stored).accessToken == access
    ensures Initial(WithTokens(s, access, refresh).stored).isAuthenticated
  {
    assert AccessTokenKey != RefreshTokenKey;
  }

  /** Clearing signs out, keeps the other storage keys and the request state, and clearing
      again changes nothing. */
  lemma ClearedFacts(s: Session, key: string)
    ensures SignedOut(Cleared(s))
    ensures Cleared(Cleared(s)) == Cleared(s)
    ensures key != AccessTokenKey && key != RefreshTokenKey ==> StoredItem(Cleared(s).stored, key) == StoredItem(s.stored, key)
    ensures Cleared(s).loading == s.loading && Cleared(s).error == s.error
  {
    assert Cleared(s).stored - {AccessTokenKey} - {RefreshTokenKey} == Cleared(s).stored;
  }

  /** A reload after signing out starts signed out. */
  lemma ReloadAfterSignOut(s: Session)
    requires SignedOut(s)
    ensures !Initial(s.stored).isAuthenticated && Initial(s.stored).accessToken.None?
  {
  }

  /** A rejected verification signs out, stops loading and records the payload. */
  lemma RejectedFacts(s: Session, payload: Option<string>)
    ensures SignedOut(Rejected(s, payload))
    ensures !Rejected(s, payload).loading && Rejected(s, payload).error == payload
    ensures Rejected(s, payload).stored == Cleared(s).stored
  {
  }

  /** A fulfilled verification authenticates without touching the tokens or storage. */
  lemma FulfilledFacts(s: Session)
    ensures Fulfilled(s).isAuthenticated && !Fulfilled(s).loading
    ensures Fulfilled(s).accessToken == s.accessToken && Fulfilled(s).refreshToken == s.refreshToken
    ensures Fulfilled(s).stored == s.stored && Fulfilled(s).error == s.error
  {
  }

  class TokenStore {
    var accessToken: Option<string>
    var refreshToken: Option<string>
    var isAuthenticated: bool
    var loading: bool
    var error: Option<string>
    const storage: LocalStorage

    /** The slice state and the storage it mirrors. */
    function State(): Session
      reads this, storage
    {
      Session(accessToken, refreshToken, isAuthenticated, loading, error, storage.items)
    }

    /** The store's creation: the initial state computed from `localStorage`. */
    constructor (storage: LocalStorage)
      ensures this.storage == storage
      ensures State() == Initial(storage.items)
    {
      this.storage := storage;
      var access := storage.GetItem(AccessTokenKey);
      accessToken := access;
      refreshToken := storage.GetItem(RefreshTokenKey);
      isAuthenticated := Truthy(access);
      loading := false;
      error := None;
    }

    method SetTokens(access: Option<string>, refresh: Option<string>)
      modifies this, storage
      ensures State() == WithTokens(old(State()), access, refresh)
    {
      accessToken := access;
      refreshToken := refresh;
      isAuthenticated := Truthy(access);
      if Truthy(access) {
        storage.SetItem(AccessTokenKey, access.value);
      }
      if Truthy(refresh) {
        storage.SetItem(RefreshTokenKey, refresh.value);
      }
    }

    /** The two storage removals shared by `logoutUser`, `clearTokens` and `verifyToken.rejected`. */
    method RemoveStoredTokens()
      modifies storage
      ensures storage.items == old(storage.items) - {AccessTokenKey} - {RefreshTokenKey}
    {
      storage.RemoveItem(AccessTokenKey);
      storage.RemoveItem(RefreshTokenKey);
    }

    method LogoutUser()
      modifies this, storage
      ensures State() == Cleared(old(State()))
    {
      accessToken := None;
      refreshToken := None;
      isAuthenticated := false;
      RemoveStoredTokens();
    }

    method ClearTokens()
      modifies this, storage
      ensures State() == Cleared(old(State()))
    {
      accessToken := None;
      refreshToken := None;
      isAuthenticated := false;
      RemoveStoredTokens();
    }

    /** `setAuthStatus(payload)`: only the flag changes. */
    method SetAuthStatus(payload: bool)
      modifies this
      ensures State() == old(State()).(isAuthenticated := payload)
    {
      isAuthenticated := payload;
    }

    method VerifyPending()
      modifies this
      ensures State() == Pending(old(State()))
    {
      loading := true;
      error := None;
    }

    method VerifyFulfilled()
      modifies this
      ensures State() == Fulfilled(old(State()))
    {
      loading := false;
      isAuthenticated := true;
    }

    method VerifyRejected(payload: Option<string>)
      modifies this, storage
      ensures State() == Rejected(old(State()), payload)
    {
      loading := false;
      isAuthenticated := false;
      error := payload;
      accessToken := None;
      refreshToken := None;
      RemoveStoredTokens();
    }
  }
}
