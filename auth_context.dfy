/** The session store: who is signed in. Its state changes only through a
    closed reducer over seven action kinds; the provider's operations
    (login, register, logout and the start-up rehydration) write the
    session to durable storage and dispatch actions in a fixed order. */
module AuthContext {
  import opened Common
  import opened Api

  datatype AuthState = AuthState(
    isAuthenticated: bool,
    user: Option<UserRecord>,
    token: Option<string>,
    loading: bool,
    error: Option<string>)

  const InitialState := AuthState(false, None, None, false, None)

  datatype AuthAction =
    | LoginStart
    | LoginSuccess(user: UserRecord, token: string)
    | LoginFailure(message: string)
    | Logout
    | RegisterStart
    | RegisterSuccess(user: UserRecord, token: string)
    | RegisterFailure(message: string)
    | Unrecognised(tag: string)

  /** Identity fields: whether, as whom, and with which token. */
  predicate SameIdentity(a: AuthState, b: AuthState) {
    a.isAuthenticated == b.isAuthenticated && a.user == b.user && a.token == b.token
  }

  /** Signed in exactly when a user and a token are held. */
  predicate Consistent(s: AuthState) {
    (s.isAuthenticated <==> s.user.Some?) && (s.user.Some? <==> s.token.Some?)
  }

  function Reduce(s: AuthState, a: AuthAction): (r: AuthState)
    ensures (a.LoginStart? || a.RegisterStart?) ==>
              r.loading && r.error.None? && SameIdentity(r, s)
    ensures (a.LoginSuccess? || a.RegisterSuccess?) ==>
              r.isAuthenticated && r.user == Some(a.user) && r.token == Some(a.token)
              && !r.loading && r.error.None?
    ensures (a.LoginFailure? || a.RegisterFailure?) ==>
              !r.loading && r.error == Some(a.message) && SameIdentity(r, s)
    ensures a.Logout? ==>
              !r.isAuthenticated && r.user.None? && r.token.None?
              && r.loading == s.loading && r.error == s.error
    ensures a.Unrecognised? ==> r == s
    ensures Consistent(s) ==> Consistent(r)
  {
    match a
    case LoginStart => s.(loading := true, error := None)
    case LoginSuccess(u, t) =>
      s.(loading := false, isAuthenticated := true, user := Some(u), token := Some(t), error := None)
    case LoginFailure(m) => s.(loading := false, error := Some(m))
    case Logout => s.(isAuthenticated := false, user := None, token := None)
    case RegisterStart => s.(loading := true, error := None)
    case RegisterSuccess(u, t) =>
      s.(loading := false, isAuthenticated := true, user := Some(u), token := Some(t), error := None)
    case RegisterFailure(m) => s.(loading := false, error := Some(m))
    case Unrecognised(_) => s
  }

  /** Registration and login are the same transitions under other names. */
  lemma LoginAndRegisterAgree(s: AuthState, u: UserRecord, t: string, m: string)
    ensures Reduce(s, RegisterStart) == Reduce(s, LoginStart)
    ensures Reduce(s, RegisterSuccess(u, t)) == Reduce(s, LoginSuccess(u, t))
    ensures Reduce(s, RegisterFailure(m)) == Reduce(s, LoginFailure(m))
  {
  }

  /** The state after dispatching `acts` in order, starting from `s`. */
  function ReduceAll(s: AuthState, acts: seq<AuthAction>): AuthState
    decreases |acts|
  {
    if acts == [] then s else Reduce(ReduceAll(s, acts[..|acts| - 1]), acts[|acts| - 1])
  }

  lemma ReduceAllSnoc(s: AuthState, acts: seq<AuthAction>, a: AuthAction)
    ensures ReduceAll(s, acts + [a]) == Reduce(ReduceAll(s, acts), a)
  {
    assert (acts + [a])[..|acts|] == acts;
  }

  /** Every state the store can reach from its initial state is consistent:
      a user and a token are held exactly while signed in. */
  lemma {:induction false} ReachableIsConsistent(acts: seq<AuthAction>)
    ensures Consistent(ReduceAll(InitialState, acts))
    decreases |acts|
  {
    if acts != [] {
      ReachableIsConsistent(acts[..|acts| - 1]);
    }
  }

  // ---------------------------------------------------------------------
  // Durable storage and rehydration

  /** Both session keys are stored with values JavaScript deems truthy. */
  predicate HasStoredSession(st: map<string, string>) {
    TokenKey in st && UserKey in st && st[TokenKey] != "" && st[UserKey] != ""
  }

  /** The start-up effect: dispatch a login success with the stored
      session if there is one, otherwise leave the state alone. */
  function Rehydrated(s: AuthState, st: map<string, string>): (r: AuthState)
    ensures HasStoredSession(st) ==>
              r.isAuthenticated && r.user == Some(st[UserKey]) && r.token == Some(st[TokenKey])
              && r.error.None? && r.loading == false
    ensures !HasStoredSession(st) ==> r == s
  {
    if HasStoredSession(st) then Reduce(s, LoginSuccess(st[UserKey], st[TokenKey])) else s
  }

  /** While signed in, storage holds exactly the state's token and user. */
  predicate Synced(s: AuthState, st: map<string, string>) {
    s.isAuthenticated ==>
      s.token.Some? && s.user.Some? &&
      Lookup(st, TokenKey) == s.token && Lookup(st, UserKey) == s.user
  }

  /** At start-up the store signs in exactly when storage holds a session,
      takes that session verbatim, and otherwise stays anonymous. */
  lemma RehydrationAuthenticatesIffStored(st: map<string, string>)
    ensures Rehydrated(InitialState, st).isAuthenticated <==> HasStoredSession(st)
    ensures !HasStoredSession(st) ==> Rehydrated(InitialState, st) == InitialState
    ensures Synced(Rehydrated(InitialState, st), st)
  {
  }

  /** A session written by a successful sign-in survives a reload. */
  lemma ReloadRestoresSession(st: map<string, string>, session: Session)
    requires session.token != "" && session.user != ""
    ensures Rehydrated(InitialState, WithSession(st, session.token, session.user))
            == Reduce(InitialState, LoginSuccess(session.user, session.token))
  {
  }

  // ---------------------------------------------------------------------
  // The provider

  /** The two sign-in flows differ only in endpoint, action names and
      fallback message. */
  datatype Flow = LoginFlow | RegisterFlow

  function StartAction(f: Flow): AuthAction {
    if f.LoginFlow? then LoginStart else RegisterStart
  }

  function SuccessAction(f: Flow, s: Session): AuthAction {
    if f.LoginFlow? then LoginSuccess(s.user, s.token) else RegisterSuccess(s.user, s.token)
  }

  function FailureAction(f: Flow, m: string): AuthAction {
    if f.LoginFlow? then LoginFailure(m) else RegisterFailure(m)
  }

  function Fallback(f: Flow): string {
    if f.LoginFlow? then "Login failed" else "Registration failed"
  }

  /** `{ success: true }` or `{ success: false, error }`. */
  function SignInResult(f: Flow, response: Response<Session>): OpResult {
    if response.Ok? then Succeeded else Failed(FailureMessage(response, Fallback(f)))
  }

  class AuthProvider {
    const api: ApiClient
    var state: AuthState
    /** Every action dispatched so far, oldest first. */
    ghost var dispatched: seq<AuthAction>

    ghost predicate Valid()
      reads this
    {
      state == ReduceAll(InitialState, dispatched)
    }

    constructor (api: ApiClient)
      ensures this.api == api && Valid()
      ensures state == InitialState && dispatched == []
    {
      this.api := api;
      state := InitialState;
      dispatched := [];
    }

    method Dispatch(a: AuthAction)
      requires Valid()
      modifies this
      ensures Valid()
      ensures state == Reduce(old(state), a) && dispatched == old(dispatched) + [a]
    {
      ReduceAllSnoc(InitialState, dispatched, a);
      state := Reduce(state, a);
      dispatched := dispatched + [a];
    }

    /** The mount effect: reads both keys and signs in when both are set. */
    method Rehydrate()
      requires Valid()
      modifies this
      ensures Valid()
      ensures state == Rehydrated(old(state), api.storage.entries)
      ensures HasStoredSession(api.storage.entries) ==>
                dispatched == old(dispatched) +
                  [LoginSuccess(api.storage.entries[UserKey], api.storage.entries[TokenKey])]
      ensures !HasStoredSession(api.storage.entries) ==> dispatched == old(dispatched)
    {
      var token := api.storage.GetItem(TokenKey);
      var user := api.storage.GetItem(UserKey);
      if token.Some? && token.value != "" && user.Some? && user.value != "" {
        Dispatch(LoginSuccess(user.value, token.value));
      }
    }

    method SignIn(flow: Flow, e: Endpoint, response: Response<Session>) returns (result: OpResult)
      requires Valid()
      modifies this, api, api.storage
      ensures Valid()
      ensures result == SignInResult(flow, response)
      ensures api.sent == old(api.sent) + [Outgoing(e, old(api.storage.entries))]
      ensures api.location == LocationAfter(old(api.location), response)
      ensures response.Ok? ==>
                dispatched == old(dispatched) + [StartAction(flow), SuccessAction(flow, response.data)]
                && state == Reduce(Reduce(old(state), StartAction(flow)), SuccessAction(flow, response.data))
                && api.storage.entries ==
                     WithSession(old(api.storage.entries), response.data.token, response.data.user)
      ensures response.Err? ==>
                dispatched == old(dispatched) + [StartAction(flow), FailureAction(flow, result.error)]
                && state == Reduce(Reduce(old(state), StartAction(flow)), FailureAction(flow, result.error))
                && api.storage.entries == AfterCall(old(api.storage.entries), response)
    {
      Dispatch(StartAction(flow));
      var r := api.Send(e, response);
      match r
      case Ok(session) =>
        api.storage.SetItem(TokenKey, session.token);
        api.storage.SetItem(UserKey, session.user);
        Dispatch(SuccessAction(flow, session));
        result := Succeeded;
      case Err(_) =>
        var message := FailureMessage(r, Fallback(flow));
        Dispatch(FailureAction(flow, message));
        result := Failed(message);
    }

    method Login(credentials: Credentials, response: Response<Session>) returns (result: OpResult)
      requires Valid()
      modifies this, api, api.storage
      ensures Valid()
      ensures api.sent == old(api.sent) + [Outgoing(AuthLogin(credentials), old(api.storage.entries))]
      ensures api.location == LocationAfter(old(api.location), response)
      ensures response.Ok? ==>
                result == Succeeded
                && dispatched == old(dispatched) +
                     [LoginStart, LoginSuccess(response.data.user, response.data.token)]
                && api.storage.entries ==
                     WithSession(old(api.storage.entries), response.data.token, response.data.user)
                && Synced(state, api.storage.entries)
      ensures response.Err? ==>
                result == Failed(FailureMessage(response, "Login failed"))
                && dispatched == old(dispatched) + [LoginStart, LoginFailure(result.error)]
                && state.error == Some(result.error)
                && SameIdentity(state, old(state))
                && api.storage.entries == AfterCall(old(api.storage.entries), response)
    {
      result := SignIn(LoginFlow, AuthLogin(credentials), response);
    }

    method Register(registration: Registration, response: Response<Session>) returns (result: OpResult)
      requires Valid()
      modifies this, api, api.storage
      ensures Valid()
      ensures api.sent == old(api.sent) + [Outgoing(AuthRegister(registration), old(api.storage.entries))]
      ensures api.location == LocationAfter(old(api.location), response)
      ensures response.Ok? ==>
                result == Succeeded
                && dispatched == old(dispatched) +
                     [RegisterStart, RegisterSuccess(response.data.user, response.data.token)]
                && api.storage.entries ==
                     WithSession(old(api.storage.entries), response.data.token, response.data.user)
                && Synced(state, api.storage.entries)
      ensures response.Err? ==>
                result == Failed(FailureMessage(response, "Registration failed"))
                && dispatched == old(dispatched) + [RegisterStart, RegisterFailure(result.error)]
                && state.error == Some(result.error)
                && SameIdentity(state, old(state))
                && api.storage.entries == AfterCall(old(api.storage.entries), response)
    {
      result := SignIn(RegisterFlow, AuthRegister(registration), response);
    }

    /** Removes both keys, then forgets the identity; `loading` and `error`
        are left as they were. */
    method Logout()
      requires Valid()
      modifies this, api.storage
      ensures Valid()
      ensures api.storage.entries == WithoutSession(old(api.storage.entries))
      ensures dispatched == old(dispatched) + [AuthAction.Logout]
      ensures !state.isAuthenticated && state.user.None? && state.token.None?
      ensures state.loading == old(state.loading) && state.error == old(state.error)
    {
      api.storage.RemoveItem(TokenKey);
      api.storage.RemoveItem(UserKey);
      Dispatch(AuthAction.Logout);
    }
  }
}
