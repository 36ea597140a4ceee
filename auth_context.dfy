/** The mock authentication context: the session state, its copy in the
    browser's key-value storage, and how a session is restored on load. */
module AuthContext {
  import opened Wrappers

  const TokenKey := "authToken"
  const EmailKey := "authUserEmail"
  /** Every user gets the same placeholder id. */
  const MockUserId := "mockId"

  datatype User = User(id: string, email: string)

  datatype AuthState = AuthState(isAuthenticated: bool, user: Option<User>, token: Option<string>)

  const SignedOut := AuthState(false, None, None)

  function SignedIn(email: string, token: string): AuthState {
    AuthState(true, Some(User(MockUserId, email)), Some(token))
  }

  /** The shape every reachable state has: signed in exactly when a user
      and a token are present, and the user always carries the mock id. */
  predicate Coherent(s: AuthState) {
    (s.isAuthenticated <==> s.user.Some? && s.token.Some?)
    && (s.user.Some? <==> s.token.Some?)
    && (s.user.Some? ==> s.user.value.id == MockUserId)
  }

  /** JavaScript truthiness of `getItem`'s result: a missing key is null
      and an empty string is falsy. */
  predicate StoredNonEmpty(storage: map<string, string>, key: string) {
    key in storage && storage[key] != ""
  }

  /** The mount effect: both keys present and non-empty restore a signed-in
      state; otherwise the current state is left as it is. */
  function Restore(storage: map<string, string>, current: AuthState): (r: AuthState)
    ensures r.isAuthenticated && r != current <==>
      StoredNonEmpty(storage, TokenKey) && StoredNonEmpty(storage, EmailKey) && current != SignedIn(storage[EmailKey], storage[TokenKey])
    ensures StoredNonEmpty(storage, TokenKey) && StoredNonEmpty(storage, EmailKey) ==>
      r.user == Some(User(MockUserId, storage[EmailKey])) && r.token == Some(storage[TokenKey])
    ensures !(StoredNonEmpty(storage, TokenKey) && StoredNonEmpty(storage, EmailKey)) ==> r == current
    ensures Coherent(current) ==> Coherent(r)
  {
    if StoredNonEmpty(storage, TokenKey) && StoredNonEmpty(storage, EmailKey) then
      SignedIn(storage[EmailKey], storage[TokenKey])
    else current
  }

  function StorageAfterLogin(storage: map<string, string>, email: string, token: string): (r: map<string, string>)
    ensures TokenKey in r && r[TokenKey] == token
    ensures EmailKey in r && r[EmailKey] == email
    ensures forall k :: k != TokenKey && k != EmailKey ==> (k in r <==> k in storage) && (k in r ==> r[k] == storage[k])
  {
    storage[TokenKey := token][EmailKey := email]
  }

  function StorageAfterLogout(storage: map<string, string>): (r: map<string, string>)
    ensures TokenKey !in r && EmailKey !in r
    ensures forall k :: k != TokenKey && k != EmailKey ==> (k in r <==> k in storage) && (k in r ==> r[k] == storage[k])
  {
    storage - {TokenKey, EmailKey}
  }

  /** A login survives a reload exactly when its email and token are both
      non-empty; otherwise a fresh load starts signed out. */
  lemma LoginSurvivesReload(storage: map<string, string>, email: string, token: string)
    ensures Restore(StorageAfterLogin(storage, email, token), SignedOut) ==
      (if email != "" && token != "" then SignedIn(email, token) else SignedOut)
  {
  }

  /** After a logout a reload stays signed out, whatever was stored before. */
  lemma LogoutSurvivesReload(storage: map<string, string>)
    ensures Restore(StorageAfterLogout(storage), SignedOut) == SignedOut
  {
  }

  /** Logging out twice leaves storage as logging out once. */
  lemma LogoutIdempotent(storage: map<string, string>)
    ensures StorageAfterLogout(StorageAfterLogout(storage)) == StorageAfterLogout(storage)
  {
  }

  /** `useAuth`: outside a provider there is no context and the hook throws. */
  function UseAuth<T>(context: Option<T>): (r: Result<T, string>)
    ensures r.Success? <==> context.Some?
    ensures r.Success? ==> r.value == context.value
    ensures r.Failure? ==> r.error == "useAuth must be used within an AuthProvider"
  {
    match context
    case Some(c) => Success(c)
    case None => Failure("useAuth must be used within an AuthProvider")
  }

  /** The provider: its session state and the storage it writes through. */
  class AuthProvider {
    var authState: AuthState
    var storage: map<string, string>

    predicate Valid()
      reads this
    {
      Coherent(authState)
    }

    /** Mounting the provider: the initial signed-out state, then the
        restore effect over what storage holds. */
    constructor (storage: map<string, string>)
      ensures Valid()
      ensures this.storage == storage
      ensures authState == Restore(storage, SignedOut)
    {
      this.storage := storage;
      authState := SignedOut;
      new;
      RestoreSession();
    }

    /** The mount effect on its own. */
    method RestoreSession()
      requires Valid()
      modifies this
      ensures Valid()
      ensures storage == old(storage)
      ensures authState == Restore(storage, old(authState))
    {
      var hasToken := TokenKey in storage && storage[TokenKey] != "";
      var hasEmail := EmailKey in storage && storage[EmailKey] != "";
      if hasToken && hasEmail {
        authState := AuthState(true, Some(User(MockUserId, storage[EmailKey])), Some(storage[TokenKey]));
      }
    }

    /** Writes both keys, then signs in with the mock user. */
    method Login(email: string, token: string)
      modifies this
      ensures Valid()
      ensures storage == StorageAfterLogin(old(storage), email, token)
      ensures authState == SignedIn(email, token)
    {
      storage := storage[TokenKey := token];
      storage := storage[EmailKey := email];
      authState := AuthState(true, Some(User(MockUserId, email)), Some(token));
    }

    /** Removes both keys and signs out. */
    method Logout()
      modifies this
      ensures Valid()
      ensures storage == StorageAfterLogout(old(storage))
      ensures authState == SignedOut
    {
      storage := storage - {TokenKey};
      storage := storage - {EmailKey};
      authState := AuthState(false, None, None);
    }

    /** In this mock, signing up is logging in. */
    method Signup(email: string, token: string)
      modifies this
      ensures Valid()
      ensures storage == StorageAfterLogin(old(storage), email, token)
      ensures authState == SignedIn(email, token)
    {
      Login(email, token);
    }

    /** What a page reload would show: a new provider mounted over the
        same storage. Changes nothing. */
    method Reload() returns (s: AuthState)
      ensures s == Restore(storage, SignedOut)
      ensures Coherent(s)
      ensures s.isAuthenticated <==> StoredNonEmpty(storage, TokenKey) && StoredNonEmpty(storage, EmailKey)
    {
      var mounted := new AuthProvider(storage);
      s := mounted.authState;
    }
  }
}
