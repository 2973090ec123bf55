/**
 * The web client's session store. It keeps the token and the serialized user under two
 * localStorage keys and the current user in React state. It restores the user on start,
 * records sign-in and sign-out, and reconciles the state with the stored token periodically.
 */
module AuthContext {
  import opened Wrappers

  const TokenKey := "@TrackJob:token"
  const UserKey := "@TrackJob:user"
  const HomePath := "/home"
  const RootPath := "/"

  /** The user the client keeps. */
  datatype ClientUser = ClientUser(id: string, name: string, email: string)

  /** What `setItem` stores for `JSON.stringify(undefined)`, which is `undefined` itself. */
  const UndefinedText := "undefined"

  /** The text `signIn` stores for its user; `None` is a user that is `undefined`. */
  function StoredUserText(u: Option<ClientUser>, stringify: ClientUser -> string): string
  {
    if u.Some? then stringify(u.value) else UndefinedText
  }

  /** What `JSON.parse` makes of the stored text: a user, `null` (`None`), or an exception. */
  datatype ParseResult = ParseError | ParsedUser(user: Option<ClientUser>)

  /** localStorage. */
  type Storage = map<string, string>

  /** `localStorage.getItem(key)` is truthy: the key is present and its value non-empty. */
  predicate Stored(storage: Storage, key: string)
  {
    key in storage && storage[key] != ""
  }

  /** The `useState` initializer: the storage afterwards and the initial user. */
  function RestoreSession(storage: Storage, parse: string -> ParseResult): (r: (Storage, Option<ClientUser>))
    ensures r.1.Some? <==> Stored(storage, UserKey) && Stored(storage, TokenKey)
                           && parse(storage[UserKey]).ParsedUser? && parse(storage[UserKey]).user.Some?
    ensures r.1.Some? ==> r.1 == parse(storage[UserKey]).user
    ensures r.0 == if Stored(storage, UserKey) && Stored(storage, TokenKey) && parse(storage[UserKey]).ParseError?
                   then storage - {TokenKey, UserKey} else storage
  {
    if Stored(storage, UserKey) && Stored(storage, TokenKey) then
      match parse(storage[UserKey])
      case ParseError => (storage - {TokenKey, UserKey}, None)
      case ParsedUser(u) => (storage, u)
    else (storage, None)
  }

  /** The storage after `signIn`. */
  function SignedInStorage(storage: Storage, token: string, serialized: string): (s: Storage)
    ensures s.Keys == storage.Keys + {TokenKey, UserKey}
    ensures s[TokenKey] == token && s[UserKey] == serialized
    ensures forall k :: k in storage && k != TokenKey && k != UserKey ==> s[k] == storage[k]
  {
    storage[TokenKey := token][UserKey := serialized]
  }

  /** The storage after `signOut`. */
  function SignedOutStorage(storage: Storage): (s: Storage)
    ensures TokenKey !in s && UserKey !in s
    ensures forall k :: k != TokenKey && k != UserKey ==> (k in s <==> k in storage)
    ensures forall k :: k in s ==> s[k] == storage[k]
  {
    storage - {TokenKey, UserKey}
  }

  /** One run of `checkAuth`: the new storage, the new user, and whether it signed out. */
  function CheckAuthStep(storage: Storage, user: Option<ClientUser>): (r: (Storage, Option<ClientUser>, bool))
    ensures r.1.Some? <==> Stored(r.0, TokenKey)
    ensures r.2 <==> user.Some? && !Stored(storage, TokenKey)
    ensures (user.Some? <==> Stored(storage, TokenKey)) ==> r == (storage, user, false)
  {
    if user.Some? && !Stored(storage, TokenKey) then (SignedOutStorage(storage), None, true)
    else if user.None? && Stored(storage, TokenKey) then (storage - {TokenKey}, None, false)
    else (storage, user, false)
  }

  /** Running `checkAuth` twice is running it once. */
  lemma CheckAuthIdempotent(storage: Storage, user: Option<ClientUser>)
    ensures var once := CheckAuthStep(storage, user);
            var twice := CheckAuthStep(once.0, once.1);
            twice.0 == once.0 && twice.1 == once.1 && !twice.2
  {
  }

  /** After signing in with a non-empty token, a reload restores the same user. */
  lemma ReloadAfterSignIn(storage: Storage, token: string, u: ClientUser,
                          stringify: ClientUser -> string, parse: string -> ParseResult)
    requires token != "" && stringify(u) != ""
    requires parse(stringify(u)) == ParsedUser(Some(u))
    ensures RestoreSession(SignedInStorage(storage, token, stringify(u)), parse)
            == (SignedInStorage(storage, token, stringify(u)), Some(u))
  {
  }

  /**
   * After signing in without a user, the stored text "undefined" is not JSON, so a reload
   * removes both keys and finds no user: the session ends up signed out.
   */
  lemma ReloadAfterSignInWithoutUser(storage: Storage, token: string, parse: string -> ParseResult)
    requires token != ""
    requires parse(UndefinedText) == ParseError
    ensures RestoreSession(SignedInStorage(storage, token, UndefinedText), parse) == (SignedOutStorage(storage), None)
  {
    var signedIn := SignedInStorage(storage, token, UndefinedText);
    assert signedIn - {TokenKey, UserKey} == storage - {TokenKey, UserKey};
  }

  /** After signing out, a reload finds no user and touches nothing. */
  lemma ReloadAfterSignOut(storage: Storage, parse: string -> ParseResult)
    ensures RestoreSession(SignedOutStorage(storage), parse) == (SignedOutStorage(storage), None)
  {
  }

  /** `AuthProvider`'s state; `lastNavigation` is the router's last `navigate` target. */
  class AuthSession {
    var storage: Storage
    var user: Option<ClientUser>
    var lastNavigation: Option<string>

    /**
     * Mounting the provider: the restored state, then the effect that sends a restored user
     * from the root page to "/home".
     */
    constructor (initial: Storage, parse: string -> ParseResult, pathname: string)
      ensures (storage, user) == RestoreSession(initial, parse)
      ensures lastNavigation == if user.Some? && pathname == RootPath then Some(HomePath) else None
    {
      var restored := RestoreSession(initial, parse);
      storage, user := restored.0, restored.1;
      lastNavigation := if restored.1.Some? && pathname == RootPath then Some(HomePath) else None;
    }

    /** `isAuthenticated`, i.e. `!!user`. */
    function IsAuthenticated(): (b: bool)
      reads this
      ensures b <==> user.Some?
    {
      user.Some?
    }

    /**
     * `signIn`: stores the token and the serialized user, sets the user, goes home. The user is
     * declared as `User`, but nothing stops a caller from passing `undefined` (`None`).
     */
    method SignIn(token: string, u: Option<ClientUser>, stringify: ClientUser -> string)
      modifies this
      ensures storage == SignedInStorage(old(storage), token, StoredUserText(u, stringify))
      ensures user == u && lastNavigation == Some(HomePath)
    {
      storage := storage[TokenKey := token];
      storage := storage[UserKey := StoredUserText(u, stringify)];
      user := u;
      lastNavigation := Some(HomePath);
    }

    /** `signOut`: removes both keys, clears the user, goes to the root page. */
    method SignOut()
      modifies this
      ensures storage == SignedOutStorage(old(storage))
      ensures user.None? && lastNavigation == Some(RootPath)
    {
      storage := storage - {TokenKey};
      storage := storage - {UserKey};
      user := None;
      lastNavigation := Some(RootPath);
    }

    /** `checkAuth`; afterwards a user is present exactly when a token is stored. */
    method CheckAuth()
      modifies this
      ensures var step := CheckAuthStep(old(storage), old(user));
              storage == step.0 && user == step.1
              && lastNavigation == if step.2 then Some(RootPath) else old(lastNavigation)
      ensures user.Some? <==> Stored(storage, TokenKey)
    {
      var storedToken := Stored(storage, TokenKey);
      var hadUser := user.Some?;
      if hadUser && !storedToken {
        SignOut();
      }
      if !hadUser && storedToken {
        storage := storage - {TokenKey};
      }
    }
  }
}
