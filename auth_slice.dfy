/**
 * The client-side authentication slice of the mobile app
 * (mobile/src/store/slices/authSlice.ts): the six-field auth state, the
 * actions the slice reacts to, the four async thunks (whose bodies are stubs
 * that always reject), and the reducer.
 *
 * The reducer is given twice: `Reduce` is the value-level specification
 * (state, action) -> state, and `AuthStore` is the store whose methods assign
 * the fields of the state in place, one method per case reducer, each proved
 * to agree with `Reduce`.
 */
module AuthSlice {
  import opened Wrappers
  import opened SharedTypes

  // ---------------------------------------------------------------------------
  // State

  /** The slice state: who is signed in, with which tokens, and the UI flags. */
  datatype AuthState = AuthState(
    user: Option<User>,
    token: Option<string>,
    refreshToken: Option<string>,
    isAuthenticated: bool,
    isLoading: bool,
    error: Option<string>)

  /** The state the slice starts in: nothing stored, not signed in, not loading, no error. */
  function InitialState(): (s: AuthState)
    ensures !s.isAuthenticated && !s.isLoading
  {
    AuthState(None, None, None, false, false, None)
  }

  // ---------------------------------------------------------------------------
  // Actions

  /** The three login-style thunks; their pending/fulfilled/rejected cases are written alike. */
  datatype LoginThunk = LoginWithEmail | RegisterWithEmail | LoginWithOAuth

  /**
   * What a successful login, registration or OAuth sign-in resolves to. The
   * source never declares this type (no body resolves); the reducer copies
   * `user`, `token` and `refreshToken` from it, and the model takes all three
   * to be present.
   */
  datatype SessionPayload = SessionPayload(user: User, token: string, refreshToken: string)

  /** What a successful token refresh resolves to; both tokens are taken to be present. */
  datatype TokenPayload = TokenPayload(token: string, refreshToken: string)

  /**
   * Every action that can reach the slice's reducer: the three synchronous
   * actions, the three lifecycle actions of each login-style thunk, and the
   * three lifecycle actions of the refresh thunk (of which the slice handles
   * only the fulfilled one).
   */
  datatype Action =
    | Logout
    | ClearError
    | SetUser(user: User)
    | Pending(thunk: LoginThunk)
    | Fulfilled(thunk: LoginThunk, session: SessionPayload)
    | Rejected(thunk: LoginThunk, message: string)
    | RefreshPending
    | RefreshFulfilled(tokens: TokenPayload)
    | RefreshRejected(message: string)

  /** The type prefix each thunk was created with. */
  function TypePrefix(t: LoginThunk): (r: string)
  {
    match t
    case LoginWithEmail => "auth/loginWithEmail"
    case RegisterWithEmail => "auth/registerWithEmail"
    case LoginWithOAuth => "auth/loginWithOAuth"
  }

  /** The refresh thunk's type prefix; note it is not named after the thunk. */
  const RefreshTypePrefix: string := "auth/refreshToken"

  /**
   * The Redux action type string of each action: `auth/<reducer>` for the
   * slice's own reducers, `<prefix>/<lifecycle>` for the thunks.
   */
  function ActionType(a: Action): (r: string)
  {
    match a
    case Logout => "auth/logout"
    case ClearError => "auth/clearError"
    case SetUser(_) => "auth/setUser"
    case Pending(t) => TypePrefix(t) + "/pending"
    case Fulfilled(t, _) => TypePrefix(t) + "/fulfilled"
    case Rejected(t, _) => TypePrefix(t) + "/rejected"
    case RefreshPending => RefreshTypePrefix + "/pending"
    case RefreshFulfilled(_) => RefreshTypePrefix + "/fulfilled"
    case RefreshRejected(_) => RefreshTypePrefix + "/rejected"
  }

  // ---------------------------------------------------------------------------
  // The reducer, as a function of values

  /**
   * The slice reducer. Each case assigns the listed fields of the state and
   * leaves the rest; action types the slice has no case for (the refresh
   * thunk's pending and rejected actions) leave the state as it is.
   */
  function Reduce(s: AuthState, a: Action): (r: AuthState)
    ensures r.isLoading != s.isLoading ==> a.Pending? || a.Fulfilled? || a.Rejected?
    ensures r.isAuthenticated && !s.isAuthenticated ==> a.Fulfilled?
    ensures r.token != s.token || r.refreshToken != s.refreshToken ==>
              a.Logout? || a.Fulfilled? || a.RefreshFulfilled?
    ensures r.user != s.user ==> a.Logout? || a.SetUser? || a.Fulfilled?
    ensures a.RefreshPending? || a.RefreshRejected? ==> r == s
  {
    match a
    case Logout =>
      s.(user := None, token := None, refreshToken := None, isAuthenticated := false, error := None)
    case ClearError =>
      s.(error := None)
    case SetUser(u) =>
      s.(user := Some(u))
    case Pending(_) =>
      s.(isLoading := true, error := None)
    case Fulfilled(_, p) =>
      s.(isLoading := false, user := Some(p.user), token := Some(p.token),
         refreshToken := Some(p.refreshToken), isAuthenticated := true, error := None)
    case Rejected(_, m) =>
      s.(isLoading := false, error := Some(m), isAuthenticated := false)
    case RefreshFulfilled(p) =>
      s.(token := Some(p.token), refreshToken := Some(p.refreshToken))
    case RefreshPending => s
    case RefreshRejected(_) => s
  }

  /** The state after the store has dispatched `actions` one after another, starting from `s`. */
  function ReduceAll(s: AuthState, actions: seq<Action>): (r: AuthState)
    decreases |actions|
  {
    if actions == [] then s else ReduceAll(Reduce(s, actions[0]), actions[1..])
  }

  // ---------------------------------------------------------------------------
  // The thunks

  /** The message every thunk body throws and rejects with. */
  const NotImplemented: string := "Not implemented"

  datatype Credentials = Credentials(email: string, password: string)

  datatype Registration = Registration(email: string, password: string, username: string, displayName: string)

  datatype Provider = Google | Facebook | Apple

  /** How a thunk body settles: a value for the fulfilled action, or a `rejectWithValue` payload. */
  datatype Settlement<P> = Resolved(value: P) | RejectedWithValue(message: string)

  /** One invocation of one of the four exported thunks, with its argument. */
  datatype ThunkCall =
    | LoginWithEmailCall(credentials: Credentials)
    | RegisterWithEmailCall(userData: Registration)
    | LoginWithOAuthCall(provider: Provider)
    | RefreshAuthTokenCall

  /**
   * The body of `loginWithEmail`: the API call is not written; it throws an
   * error whose message the catch block hands to `rejectWithValue`.
   */
  function LoginWithEmailBody(c: Credentials): (r: Settlement<SessionPayload>)
  {
    RejectedWithValue(NotImplemented)
  }

  /** The body of `registerWithEmail`: a stub that always rejects, like the others. */
  function RegisterWithEmailBody(u: Registration): (r: Settlement<SessionPayload>)
  {
    RejectedWithValue(NotImplemented)
  }

  /** The body of `loginWithOAuth`: a stub that always rejects, for every provider. */
  function LoginWithOAuthBody(p: Provider): (r: Settlement<SessionPayload>)
  {
    RejectedWithValue(NotImplemented)
  }

  /** The body of `refreshAuthToken`: a stub that always rejects. */
  function RefreshAuthTokenBody(): (r: Settlement<TokenPayload>)
  {
    RejectedWithValue(NotImplemented)
  }

  /** The two actions a login-style thunk dispatches: pending, then fulfilled or rejected. */
  function LoginLifecycle(t: LoginThunk, outcome: Settlement<SessionPayload>): (r: seq<Action>)
  {
    [Pending(t),
     match outcome
     case Resolved(p) => Fulfilled(t, p)
     case RejectedWithValue(m) => Rejected(t, m)]
  }

  /** The two actions the refresh thunk dispatches. */
  function RefreshLifecycle(outcome: Settlement<TokenPayload>): (r: seq<Action>)
  {
    [RefreshPending,
     match outcome
     case Resolved(p) => RefreshFulfilled(p)
     case RejectedWithValue(m) => RefreshRejected(m)]
  }

  /** The actions one invocation of a thunk dispatches, given its body as written. */
  function ThunkActions(call: ThunkCall): (r: seq<Action>)
    ensures |r| == 2
    ensures r[0] ==
            match call
            case LoginWithEmailCall(_) => Pending(LoginWithEmail)
            case RegisterWithEmailCall(_) => Pending(RegisterWithEmail)
            case LoginWithOAuthCall(_) => Pending(LoginWithOAuth)
            case RefreshAuthTokenCall => RefreshPending
  {
    match call
    case LoginWithEmailCall(c) => LoginLifecycle(LoginWithEmail, LoginWithEmailBody(c))
    case RegisterWithEmailCall(u) => LoginLifecycle(RegisterWithEmail, RegisterWithEmailBody(u))
    case LoginWithOAuthCall(p) => LoginLifecycle(LoginWithOAuth, LoginWithOAuthBody(p))
    case RefreshAuthTokenCall => RefreshLifecycle(RefreshAuthTokenBody())
  }

  // ---------------------------------------------------------------------------
  // The store, updated in place

  /** The auth slice of the store: the six fields that the case reducers assign. */
  class AuthStore {
    var user: Option<User>
    var token: Option<string>
    var refreshToken: Option<string>
    var isAuthenticated: bool
    var isLoading: bool
    var error: Option<string>

    /** The current state as a value. */
    function State(): (s: AuthState)
      reads this
    {
      AuthState(user, token, refreshToken, isAuthenticated, isLoading, error)
    }

    /** A store holding the initial state. */
    constructor ()
      ensures user == None && token == None && refreshToken == None
      ensures !isAuthenticated && !isLoading && error == None
      ensures State() == InitialState()
    {
      user, token, refreshToken := None, None, None;
      isAuthenticated, isLoading, error := false, false, None;
    }

    /** The `logout` reducer: forgets the user and both tokens, and clears the error; `isLoading` is kept. */
    method Logout()
      modifies this
      ensures user == None && token == None && refreshToken == None
      ensures !isAuthenticated && error == None
      ensures isLoading == old(isLoading)
      ensures State() == Reduce(old(State()), Action.Logout)
    {
      user := None;
      token := None;
      refreshToken := None;
      isAuthenticated := false;
      error := None;
    }

    /** The `clearError` reducer: clears the error and nothing else. */
    method ClearError()
      modifies this
      ensures error == None
      ensures user == old(user) && token == old(token) && refreshToken == old(refreshToken)
      ensures isAuthenticated == old(isAuthenticated) && isLoading == old(isLoading)
      ensures State() == Reduce(old(State()), Action.ClearError)
    {
      error := None;
    }

    /** The `setUser` reducer: replaces the user and nothing else; the tokens and the flag are kept. */
    method SetUser(u: User)
      modifies this
      ensures user == Some(u)
      ensures token == old(token) && refreshToken == old(refreshToken)
      ensures isAuthenticated == old(isAuthenticated) && isLoading == old(isLoading) && error == old(error)
      ensures State() == Reduce(old(State()), Action.SetUser(u))
    {
      user := Some(u);
    }

    /** The pending case of a login-style thunk: loading starts and the error is cleared, whatever was in flight. */
    method OnPending(t: LoginThunk)
      modifies this
      ensures isLoading && error == None
      ensures user == old(user) && token == old(token) && refreshToken == old(refreshToken)
      ensures isAuthenticated == old(isAuthenticated)
      ensures State() == Reduce(old(State()), Pending(t))
    {
      isLoading := true;
      error := None;
    }

    /** The fulfilled case of a login-style thunk: the session from the payload is installed. */
    method OnFulfilled(t: LoginThunk, p: SessionPayload)
      modifies this
      ensures !isLoading && isAuthenticated && error == None
      ensures user == Some(p.user) && token == Some(p.token) && refreshToken == Some(p.refreshToken)
      ensures State() == Reduce(old(State()), Fulfilled(t, p))
    {
      isLoading := false;
      user := Some(p.user);
      token := Some(p.token);
      refreshToken := Some(p.refreshToken);
      isAuthenticated := true;
      error := None;
    }

    /** The rejected case of a login-style thunk: loading stops, the message becomes the error, and the flag drops; user and tokens stay. */
    method OnRejected(t: LoginThunk, m: string)
      modifies this
      ensures !isLoading && !isAuthenticated && error == Some(m)
      ensures user == old(user) && token == old(token) && refreshToken == old(refreshToken)
      ensures State() == Reduce(old(State()), Rejected(t, m))
    {
      isLoading := false;
      error := Some(m);
      isAuthenticated := false;
    }

    /** The fulfilled case of the refresh thunk: replaces both tokens and nothing else. */
    method OnRefreshFulfilled(p: TokenPayload)
      modifies this
      ensures token == Some(p.token) && refreshToken == Some(p.refreshToken)
      ensures user == old(user) && isAuthenticated == old(isAuthenticated)
      ensures isLoading == old(isLoading) && error == old(error)
      ensures State() == Reduce(old(State()), RefreshFulfilled(p))
    {
      token := Some(p.token);
      refreshToken := Some(p.refreshToken);
    }

    /** The slice reducer as the store runs it: the case for the action's type, or no change. */
    method Dispatch(a: Action)
      modifies this
      ensures State() == Reduce(old(State()), a)
    {
      match a
      case Logout => Logout();
      case ClearError => ClearError();
      case SetUser(u) => SetUser(u);
      case Pending(t) => OnPending(t);
      case Fulfilled(t, p) => OnFulfilled(t, p);
      case Rejected(t, m) => OnRejected(t, m);
      case RefreshFulfilled(p) => OnRefreshFulfilled(p);
      case RefreshPending =>
      case RefreshRejected(_) =>
    }

    /**
     * One thunk invocation with nothing dispatched in between: the pending
     * action, then the settlement of the body. With the bodies as written, a
     * login-style thunk leaves a signed-out, not-loading state carrying the
     * 'Not implemented' error and the previous user and tokens; the refresh
     * thunk changes nothing.
     */
    method DispatchThunk(call: ThunkCall)
      modifies this
      ensures State() == ReduceAll(old(State()), ThunkActions(call))
      ensures call.RefreshAuthTokenCall? ==> State() == old(State())
      ensures !call.RefreshAuthTokenCall? ==>
                !isLoading && !isAuthenticated && error == Some(NotImplemented) &&
                user == old(user) && token == old(token) && refreshToken == old(refreshToken)
    {
      var actions := ThunkActions(call);
      ghost var before := State();
      Dispatch(actions[0]);
      ghost var afterPending := State();
      Dispatch(actions[1]);
      assert actions[1..][1..] == [];
      assert ReduceAll(afterPending, actions[1..]) == State();
      assert ReduceAll(before, actions) == ReduceAll(afterPending, actions[1..]);
    }
  }
}
