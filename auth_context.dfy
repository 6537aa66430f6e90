/** The session state container: a reducer over four actions, the provider operations that
    dispatch them and keep the two persisted keys, and the restore step run once at start-up. */
module AuthContext {
  import opened Wrappers
  import opened UserJson
  import opened LocalStorage

  /** The session snapshot every consumer reads; `None` is `null`. */
  datatype AuthState = AuthState(user: Option<User>, token: Option<string>, isAuthenticated: bool, loading: bool)

  /** The state before the start-up restore has run. */
  const InitialState := AuthState(None, None, false, true)

  datatype Action =
    | LoginSuccess(user: Option<User>, token: Option<string>)
    | Logout
    | SetLoading(loading: bool)
    | RestoreSession(user: Option<User>, token: Option<string>)
      /** An action whose type is none of the four above. */
    | Other(kind: string)

  /** The session invariant: authenticated exactly when both a user and a token are held. */
  predicate Consistent(s: AuthState)
  {
    s.isAuthenticated <==> (s.user.Some? && s.token.Some?)
  }

  /** The payload of a login or restore carries a user and a token. */
  predicate PayloadPresent(a: Action)
  {
    (a.LoginSuccess? || a.RestoreSession?) ==> a.user.Some? && a.token.Some?
  }

  /** The reducer: each action yields a fresh state built from the old one. */
  function Reduce(s: AuthState, a: Action): (r: AuthState)
    ensures Consistent(s) && PayloadPresent(a) ==> Consistent(r)
  {
    match a
    case LoginSuccess(user, token) => s.(user := user, token := token, isAuthenticated := true, loading := false)
    case Logout => s.(user := None, token := None, isAuthenticated := false, loading := false)
    case SetLoading(loading) => s.(loading := loading)
    case RestoreSession(user, token) => s.(user := user, token := token, isAuthenticated := true, loading := false)
    case Other(_) => s
  }

  /** The state after dispatching `actions` in order, starting from `s`. */
  function Run(s: AuthState, actions: seq<Action>): AuthState
    decreases |actions|
  {
    if actions == [] then s else Run(Reduce(s, actions[0]), actions[1..])
  }

  lemma LoginSuccessAuthenticates(s: AuthState, user: Option<User>, token: Option<string>)
    ensures Reduce(s, LoginSuccess(user, token)) == AuthState(user, token, true, false)
  {
  }

  lemma LogoutResets(s: AuthState)
    ensures Reduce(s, Logout) == AuthState(None, None, false, false)
    ensures Reduce(Reduce(s, Logout), Logout) == Reduce(s, Logout)
  {
  }

  lemma SetLoadingOnlyLoading(s: AuthState, loading: bool)
    ensures Reduce(s, SetLoading(loading)).loading == loading
    ensures Reduce(s, SetLoading(loading)).user == s.user
    ensures Reduce(s, SetLoading(loading)).token == s.token
    ensures Reduce(s, SetLoading(loading)).isAuthenticated == s.isAuthenticated
  {
  }

  lemma RestoreIsLogin(s: AuthState, user: Option<User>, token: Option<string>)
    ensures Reduce(s, RestoreSession(user, token)) == Reduce(s, LoginSuccess(user, token))
  {
  }

  lemma OtherUnchanged(s: AuthState, kind: string)
    ensures Reduce(s, Other(kind)) == s
  {
  }

  /** Dispatching only actions whose login/restore payloads are present keeps the invariant. */
  lemma {:induction false} RunConsistent(s: AuthState, actions: seq<Action>)
    requires Consistent(s)
    requires forall i :: 0 <= i < |actions| ==> PayloadPresent(actions[i])
    ensures Consistent(Run(s, actions))
    decreases |actions|
  {
    if actions != [] {
      RunConsistent(Reduce(s, actions[0]), actions[1..]);
    }
  }

  /** Every sequence of dispatches from the initial state, with present payloads, keeps the invariant. */
  lemma InitialRunConsistent(actions: seq<Action>)
    requires forall i :: 0 <= i < |actions| ==> PayloadPresent(actions[i])
    ensures Consistent(Run(InitialState, actions))
  {
    RunConsistent(InitialState, actions);
  }

  /** The store after a remembered login has written both session keys. */
  function Remember(items: map<string, string>, user: User, token: string): (r: map<string, string>)
    ensures Get(r, AuthTokenKey) == Some(token) && Get(r, UserKey) == Some(Stringify(user))
    ensures r.Keys == items.Keys + {AuthTokenKey, UserKey}
    ensures forall k :: k in items && k != AuthTokenKey && k != UserKey ==> r[k] == items[k]
  {
    items[AuthTokenKey := token][UserKey := Stringify(user)]
  }

  /** The start-up restore: the new state and the new store, from the state and store it finds. */
  function RestoreEffect(s: AuthState, items: map<string, string>): (r: (AuthState, map<string, string>))
    ensures r.1 == items || r.1 == Cleared(items)
    ensures r.0 == s || !r.0.loading
    ensures r.1 != items ==> r.0 == s
  {
    var token := Get(items, AuthTokenKey);
    var user := Get(items, UserKey);
    if Truthy(token) && Truthy(user) then
      match Parse(user.value)
      case Some(parsed) => (Reduce(s, RestoreSession(parsed, token)), items)
      case None => (s, Cleared(items))
    else
      (Reduce(s, SetLoading(false)), items)
  }

  /** Both keys hold non-empty text and the identity parses: authenticated with what was stored. */
  lemma RestoreFound(s: AuthState, items: map<string, string>)
    requires Truthy(Get(items, AuthTokenKey)) && Truthy(Get(items, UserKey))
    requires Parse(items[UserKey]).Some? && Parse(items[UserKey]).value.Some?
    ensures RestoreEffect(s, items).0 == AuthState(Parse(items[UserKey]).value, Some(items[AuthTokenKey]), true, false)
    ensures Consistent(RestoreEffect(s, items).0)
    ensures RestoreEffect(s, items).1 == items
  {
  }

  /** A stored identity of `null` parses, so the session is restored as authenticated without
      a user: the one start-up path that breaks the invariant. */
  lemma RestoreNullUser(s: AuthState, items: map<string, string>)
    requires Truthy(Get(items, AuthTokenKey))
    requires Get(items, UserKey) == Some(NullText)
    ensures RestoreEffect(s, items).0 == AuthState(None, Some(items[AuthTokenKey]), true, false)
    ensures !Consistent(RestoreEffect(s, items).0)
  {
  }

  /** A key absent (or empty): loading ends, nothing else changes, the store is untouched. */
  lemma RestoreAbsent(s: AuthState, items: map<string, string>)
    requires !Truthy(Get(items, AuthTokenKey)) || !Truthy(Get(items, UserKey))
    ensures RestoreEffect(s, items).0 == s.(loading := false)
    ensures RestoreEffect(s, items).1 == items
    ensures RestoreEffect(InitialState, items).0 == AuthState(None, None, false, false)
  {
  }

  /** The identity does not parse: both keys are removed and no action is dispatched, so the
      initial state keeps `loading` true. */
  lemma RestoreCorrupt(s: AuthState, items: map<string, string>)
    requires Truthy(Get(items, AuthTokenKey)) && Truthy(Get(items, UserKey))
    requires Parse(items[UserKey]).None?
    ensures RestoreEffect(s, items).0 == s
    ensures RestoreEffect(s, items).1 == Cleared(items)
    ensures RestoreEffect(InitialState, items).0.loading
  {
  }

  /** A remembered login with a non-empty token is restored on the next start-up to the very
      state the login produced. */
  lemma RememberedLoginRestores(s: AuthState, items: map<string, string>, user: User, token: string)
    requires token != ""
    ensures RestoreEffect(InitialState, Remember(items, user, token)).0 == Reduce(s, LoginSuccess(Some(user), Some(token)))
    ensures RestoreEffect(InitialState, Remember(items, user, token)).1 == Remember(items, user, token)
  {
    ParseStringify(user);
    StringifyNonEmpty(user);
  }

  /** The provider: the current state and the store it shares with the API client. */
  class AuthProvider {
    var state: AuthState
    const storage: Storage

    /** Mounting the provider: the reducer starts from the initial state. */
    constructor (storage: Storage)
      ensures this.storage == storage && state == InitialState
    {
      this.storage := storage;
      state := InitialState;
    }

    method Dispatch(a: Action)
      modifies this
      ensures state == Reduce(old(state), a)
    {
      state := Reduce(state, a);
    }

    /** The start-up effect that restores a persisted session. */
    method Restore()
      modifies this, storage
      ensures (state, storage.items) == RestoreEffect(old(state), old(storage.items))
    {
      var token := storage.GetItem(AuthTokenKey);
      var user := storage.GetItem(UserKey);
      if Truthy(token) && Truthy(user) {
        var parsed := Parse(user.value);
        if parsed.Some? {
          Dispatch(RestoreSession(parsed.value, token));
        } else {
          storage.RemoveSession();
        }
      } else {
        Dispatch(Action.SetLoading(false));
      }
    }

    /** `login(user, token, rememberMe)`: both keys are written only when `rememberMe` holds. */
    method Login(user: User, token: string, rememberMe: bool := false)
      modifies this, storage
      ensures state == Reduce(old(state), LoginSuccess(Some(user), Some(token)))
      ensures rememberMe ==> storage.items == Remember(old(storage.items), user, token)
      ensures !rememberMe ==> storage.items == old(storage.items)
    {
      Dispatch(LoginSuccess(Some(user), Some(token)));
      if rememberMe {
        storage.SetItem(AuthTokenKey, token);
        storage.SetItem(UserKey, Stringify(user));
      }
    }

    /** `logout()`: always removes both keys. */
    method Logout()
      modifies this, storage
      ensures state == Reduce(old(state), Action.Logout)
      ensures storage.items == Cleared(old(storage.items))
    {
      Dispatch(Action.Logout);
      storage.RemoveSession();
    }

    method SetLoading(loading: bool)
      modifies this
      ensures state == Reduce(old(state), Action.SetLoading(loading))
      ensures storage.items == old(storage.items)
    {
      Dispatch(Action.SetLoading(loading));
    }
  }

  /** A remembered login, then a reload of the application over the same store: the new
      provider's restore yields the authenticated session that was logged in. */
  method RememberThenReload(storage: Storage, user: User, token: string) returns (reloaded: AuthProvider)
    requires token != ""
    modifies storage
    ensures reloaded.state == AuthState(Some(user), Some(token), true, false)
    ensures storage.items == Remember(old(storage.items), user, token)
  {
    var first := new AuthProvider(storage);
    first.Login(user, token, true);
    reloaded := new AuthProvider(storage);
    RememberedLoginRestores(InitialState, old(storage.items), user, token);
    reloaded.Restore();
  }
}
