/**
  The authentication session (AuthContext.jsx): the token, whether the user counts as
  authenticated, the current user, and the token kept in storage.
*/
module AuthContext {
  import opened Wrappers
  import opened Storage

  /** The user record `GET /api/auth/me` returns. */
  datatype User = User(name: string, email: string)

  /** The context's state together with the storage it writes. */
  datatype AuthState = AuthState(
    token: Option<string>,
    isAuthenticated: bool,
    user: Option<User>,
    stored: map<string, Stored>)

  /** `localStorage.getItem("token")`. */
  function StoredToken(stored: map<string, Stored>): Option<string> {
    if TokenKey in stored && stored[TokenKey].Text? then Some(stored[TokenKey].text) else None
  }

  /** The in-memory token is the stored one. */
  predicate TokenSynced(s: AuthState) {
    s.token == StoredToken(s.stored)
  }

  /**
    The state on load: the stored token, authenticated exactly when that token is present
    and non-empty (`!!localStorage.getItem("token")`), and no user yet.
  */
  function InitialAuth(stored: map<string, Stored>): (s: AuthState)
    ensures TokenSynced(s) && s.stored == stored && s.user.None?
    ensures s.isAuthenticated <==> TokenKey in stored && stored[TokenKey].Text? && stored[TokenKey].text != ""
  {
    var t := StoredToken(stored);
    AuthState(t, t.Some? && t.value != "", None, stored)
  }

  /** `login(t)`: the token is stored and kept, and the user counts as authenticated. */
  function LoggedIn(s: AuthState, t: string): (r: AuthState)
    ensures TokenSynced(r) && r.token == Some(t) && r.isAuthenticated && r.user == s.user
    ensures r.stored[TokenKey] == Text(t)
    ensures forall k :: k != TokenKey ==> (k in r.stored <==> k in s.stored)
    ensures forall k :: k != TokenKey && k in s.stored ==> r.stored[k] == s.stored[k]
  {
    AuthState(Some(t), true, s.user, s.stored[TokenKey := Text(t)])
  }

  /** `logout()`: the stored token is removed and token, authentication and user are cleared. */
  function LoggedOut(s: AuthState): (r: AuthState)
    ensures TokenSynced(r) && r.token.None? && !r.isAuthenticated && r.user.None?
    ensures TokenKey !in r.stored
    ensures forall k :: k != TokenKey ==> (k in r.stored <==> k in s.stored)
    ensures forall k :: k != TokenKey && k in s.stored ==> r.stored[k] == s.stored[k]
  {
    AuthState(None, false, None, s.stored - {TokenKey})
  }

  /** The outcome of `GET /api/auth/me`. */
  datatype UserFetch = Fetched(user: User) | NotOk | Failed

  /** `fetchUser`: the user on success, the logout state on a non-ok response or an error. */
  function AfterUserFetch(s: AuthState, outcome: UserFetch): (r: AuthState)
    ensures outcome.Fetched? ==> r == s.(user := Some(outcome.user), isAuthenticated := true)
    ensures !outcome.Fetched? ==> r == LoggedOut(s)
  {
    match outcome
    case Fetched(u) => s.(user := Some(u), isAuthenticated := true)
    case _ => LoggedOut(s)
  }

  /** Logging out first does not change what logging in leaves for the token, authentication and storage. */
  lemma LogoutThenLogin(s: AuthState, t: string)
    ensures LoggedIn(LoggedOut(s), t).token == LoggedIn(s, t).token
    ensures LoggedIn(LoggedOut(s), t).isAuthenticated == LoggedIn(s, t).isAuthenticated
    ensures LoggedIn(LoggedOut(s), t).stored == LoggedIn(s, t).stored
  {
    var a := LoggedIn(LoggedOut(s), t).stored;
    var b := LoggedIn(s, t).stored;
    assert a.Keys == b.Keys;
  }

  /** Logging out twice is logging out once. */
  lemma LogoutIdempotent(s: AuthState)
    ensures LoggedOut(LoggedOut(s)) == LoggedOut(s)
  {
    assert (s.stored - {TokenKey}) - {TokenKey} == s.stored - {TokenKey};
  }

  /** Every transition keeps the in-memory token equal to the stored one. */
  lemma TransitionsKeepTokenSynced(s: AuthState, t: string, outcome: UserFetch)
    requires TokenSynced(s)
    ensures TokenSynced(LoggedIn(s, t)) && TokenSynced(LoggedOut(s))
    ensures TokenSynced(AfterUserFetch(s, outcome))
  {
  }

  /** The authentication context. `store` is the browser storage it shares with the profile context. */
  class AuthSession {
    var token: Option<string>
    var isAuthenticated: bool
    var user: Option<User>
    const store: LocalStorage

    /** The context's state and the storage, as one value. */
    function State(): AuthState
      reads this, store
    {
      AuthState(token, isAuthenticated, user, store.entries)
    }

    constructor (store: LocalStorage)
      ensures this.store == store
      ensures State() == InitialAuth(store.entries)
    {
      this.store := store;
      var t := if TokenKey in store.entries && store.entries[TokenKey].Text? then Some(store.entries[TokenKey].text) else None;
      isAuthenticated := t.Some? && t.value != "";
      token := t;
      user := None;
    }

    method Login(newToken: string)
      modifies this, store
      ensures State() == LoggedIn(old(State()), newToken)
    {
      store.SetItem(TokenKey, Text(newToken));
      token := Some(newToken);
      isAuthenticated := true;
    }

    method Logout()
      modifies this, store
      ensures State() == LoggedOut(old(State()))
    {
      store.RemoveItem(TokenKey);
      token := None;
      isAuthenticated := false;
      user := None;
    }

    method FetchUser(outcome: UserFetch)
      modifies this, store
      ensures State() == AfterUserFetch(old(State()), outcome)
    {
      if outcome.Fetched? {
        user := Some(outcome.user);
        isAuthenticated := true;
      } else {
        Logout();
      }
    }

    /** The effect on `[token]`: the user is fetched only while a non-empty token is held. */
    method OnTokenChange(outcome: UserFetch)
      modifies this, store
      ensures old(token).Some? && old(token).value != "" ==> State() == AfterUserFetch(old(State()), outcome)
      ensures !(old(token).Some? && old(token).value != "") ==> State() == old(State())
    {
      if token.Some? && token.value != "" {
        FetchUser(outcome);
      }
    }
  }
}
