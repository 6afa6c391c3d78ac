/** The client's session: the reducer behind login and logout, the state
    read back from local storage at start-up, and the effect that writes
    the session to local storage after every change. */
module AuthContext {
  import opened Common
  import opened UserModel

  /** The user object the client keeps. */
  datatype ClientUser = ClientUser(id: string, name: string, email: string, role: Role)

  datatype AuthState = AuthState(user: Option<ClientUser>, token: Option<string>)

  const LoggedOut := AuthState(None, None)

  datatype LoginPayload = LoginPayload(user: Option<ClientUser>, token: Option<string>)

  /** A dispatched action: its `type` text and an optional payload. */
  datatype Action = Action(kind: string, payload: Option<LoginPayload>)

  /** authReducer. A LOGIN without a payload throws on reading
      `payload.user`; that is the None result. */
  function AuthReducer(state: AuthState, action: Action): (r: Option<AuthState>)
    ensures r.None? <==> action.kind == "LOGIN" && action.payload.None?
  {
    if action.kind == "LOGIN" then
      match action.payload
      case None => None
      case Some(p) => Some(AuthState(p.user, p.token))
    else if action.kind == "LOGOUT" then Some(LoggedOut)
    else Some(state)
  }

  /** LOGIN installs the payload's user and token whatever came before. */
  lemma LoginIgnoresPriorState(s1: AuthState, s2: AuthState, p: LoginPayload)
    ensures AuthReducer(s1, Action("LOGIN", Some(p))) == AuthReducer(s2, Action("LOGIN", Some(p)))
                                                   == Some(AuthState(p.user, p.token))
  {
  }

  /** LOGOUT clears both fields, and doing it twice is doing it once. */
  lemma LogoutIdempotent(s: AuthState, payload: Option<LoginPayload>)
    ensures AuthReducer(s, Action("LOGOUT", payload)) == Some(LoggedOut)
    ensures AuthReducer(LoggedOut, Action("LOGOUT", payload)) == AuthReducer(s, Action("LOGOUT", payload))
  {
  }

  /** Any other action type leaves the state as it was. */
  lemma OtherActionsKeepState(s: AuthState, action: Action)
    requires action.kind != "LOGIN" && action.kind != "LOGOUT"
    ensures AuthReducer(s, action) == Some(s)
  {
  }

  /** The `user` and `token` keys of local storage: each present or not.
      The user is kept as the object its JSON text encodes. */
  datatype StoredSession = StoredSession(user: Option<ClientUser>, token: Option<string>)

  /** `state.user && state.token`: a user object is truthy, an empty token
      is not. */
  predicate Persistable(s: AuthState) {
    s.user.Some? && TruthyString(s.token)
  }

  /** The keys the persisting effect leaves behind. */
  function Persisted(s: AuthState): (p: StoredSession)
    ensures p.user.Some? <==> Persistable(s)
    ensures p.token.Some? <==> Persistable(s)
  {
    if Persistable(s) then StoredSession(s.user, s.token) else StoredSession(None, None)
  }

  /** The initial state: the stored user when the key is present, and the
      stored token when it is present and non-empty. */
  function InitialState(items: StoredSession): (s: AuthState)
    ensures s.user == items.user
    ensures s.token.Some? <==> TruthyString(items.token)
    ensures s.token.Some? ==> s.token == items.token
  {
    AuthState(items.user, if TruthyString(items.token) then items.token else None)
  }

  /** After the effect, both keys are present exactly when the state has a
      user and a non-empty token, and otherwise both are gone. */
  lemma PersistedKeys(s: AuthState)
    ensures Persisted(s).user.Some? && Persisted(s).token.Some? <==> Persistable(s)
    ensures Persisted(s).user.Some? <==> Persisted(s).token.Some?
  {
  }

  /** Reading back what the effect stored restores a persistable session,
      and gives the logged-out state otherwise. */
  lemma RestoreAfterPersist(s: AuthState)
    ensures InitialState(Persisted(s)) == if Persistable(s) then s else LoggedOut
  {
  }

  /** The browser's local storage, reduced to the two keys the session uses. */
  class LocalStorage {
    var user: Option<ClientUser>
    var token: Option<string>

    function Items(): StoredSession
      reads this
    {
      StoredSession(user, token)
    }

    constructor (items: StoredSession)
      ensures Items() == items
    {
      user := items.user;
      token := items.token;
    }

    /** The AuthProvider effect, run after every state change. */
    method PersistSession(state: AuthState)
      modifies this
      ensures Items() == Persisted(state)
      ensures user.Some? && token.Some? <==> Persistable(state)
    {
      if state.user.Some? && TruthyString(state.token) {
        user := state.user;
        token := state.token;
      } else {
        user := None;
        token := None;
      }
    }
  }
}
