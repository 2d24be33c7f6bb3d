/** The authentication slice of the Redux store: its state, its reducers, and the
    two thunks that call the backend and turn its failures into an error value. */
module AuthSlice {
  import opened Base

  datatype AuthUser = AuthUser(id: string, name: string, email: string, avatarUrl: Option<string>)

  /** The error value kept in the store. */
  datatype ApiError = ApiError(status: int, message: string)

  /** What a call into the backend threw: either field may be missing. */
  datatype Thrown = Thrown(status: Option<int>, message: Option<string>)

  /** How a call into the backend ended; the backend itself is not part of this
      model and enters as this value. */
  datatype Outcome<T> = Resolved(value: T) | Threw(err: Thrown)

  datatype Session = Session(user: AuthUser, token: string)

  datatype Credentials = Credentials(email: string, password: string, username: Option<string>)

  datatype AuthState = AuthState(user: Option<AuthUser>, token: Option<string>, loading: bool, error: Option<ApiError>)

  const InitialAuth := AuthState(None, None, false, None)

  /** The actions the slice reduces. A rejected action's payload is missing when the
      thunk did not reach `rejectWithValue`. */
  datatype Action =
    | SetCredentials(session: Session)
    | ClearError
    | LoginPending
    | LoginFulfilled(session: Session)
    | LoginRejected(payload: Option<ApiError>)
    | LogoutPending
    | LogoutFulfilled
    | LogoutRejected(payload: Option<ApiError>)

  /** The error a thunk rejects with: the thrown status or 500, the thrown message or
      `fallback`. Only a missing field falls back; an empty message is kept. */
  function RejectPayload(err: Thrown, fallback: string): (e: ApiError)
    ensures err.status.Some? ==> e.status == err.status.value
    ensures err.status.None? ==> e.status == 500
    ensures err.message.Some? ==> e.message == err.message.value
    ensures err.message.None? ==> e.message == fallback
  {
    ApiError(err.status.GetOr(500), err.message.GetOr(fallback))
  }

  /** The action a settled login thunk dispatches. */
  function LoginSettled(o: Outcome<Session>): (a: Action)
    ensures o.Resolved? ==> a == LoginFulfilled(o.value)
    ensures o.Threw? ==> a.LoginRejected? && a.payload == Some(RejectPayload(o.err, "Login failed"))
  {
    match o
    case Resolved(session) => LoginFulfilled(session)
    case Threw(err) => LoginRejected(Some(RejectPayload(err, "Login failed")))
  }

  /** The action a settled logout thunk dispatches. */
  function LogoutSettled(o: Outcome<()>): (a: Action)
    ensures o.Resolved? ==> a == LogoutFulfilled
    ensures o.Threw? ==> a.LogoutRejected? && a.payload == Some(RejectPayload(o.err, "Logout failed"))
  {
    match o
    case Resolved(_) => LogoutFulfilled
    case Threw(err) => LogoutRejected(Some(RejectPayload(err, "Logout failed")))
  }

  /** The slice's reducer as a function of the state before the action. */
  function Reduce(st: AuthState, a: Action): AuthState {
    match a
    case SetCredentials(session) => st.(user := Some(session.user), token := Some(session.token), error := None)
    case ClearError => st.(error := None)
    case LoginPending => st.(loading := true, error := None)
    case LoginFulfilled(session) => st.(loading := false, user := Some(session.user), token := Some(session.token))
    case LoginRejected(payload) => st.(loading := false, error := Some(payload.GetOr(ApiError(500, "Login failed"))))
    case LogoutPending => st.(loading := true, error := None)
    case LogoutFulfilled => st.(loading := false, user := None, token := None)
    case LogoutRejected(payload) => st.(loading := false, error := Some(payload.GetOr(ApiError(500, "Logout failed"))))
  }

  /** A user is signed in exactly when a token is held. */
  predicate SessionConsistent(st: AuthState) {
    st.user.Some? <==> st.token.Some?
  }

  /** Every action keeps the user and the token together, starting from the initial
      state. */
  lemma ReduceKeepsSession(st: AuthState, a: Action)
    requires SessionConsistent(st)
    ensures SessionConsistent(Reduce(st, a))
    ensures SessionConsistent(InitialAuth)
  {
  }

  /** A pending action sets `loading` and clears the error; a settled one clears
      `loading`; `SetCredentials` and `ClearError` leave it alone. */
  lemma ReduceLoading(st: AuthState, a: Action)
    ensures (a.LoginPending? || a.LogoutPending?) ==> Reduce(st, a).loading && Reduce(st, a).error == None
    ensures (a.LoginFulfilled? || a.LoginRejected? || a.LogoutFulfilled? || a.LogoutRejected?) ==> !Reduce(st, a).loading
    ensures (a.SetCredentials? || a.ClearError?) ==> Reduce(st, a).loading == st.loading
  {
  }

  /** A rejection always leaves an error behind, and it changes neither the user nor
      the token: a failed logout keeps the user signed in. */
  lemma RejectionKeepsSession(st: AuthState, a: Action)
    requires a.LoginRejected? || a.LogoutRejected?
    ensures Reduce(st, a).error.Some?
    ensures Reduce(st, a).user == st.user && Reduce(st, a).token == st.token
    ensures a.payload.Some? ==> Reduce(st, a).error == a.payload
  {
  }

  /** `ClearError` changes only the error, and twice is once. */
  lemma ClearErrorOnlyError(st: AuthState)
    ensures Reduce(st, ClearError) == st.(error := None)
    ensures Reduce(Reduce(st, ClearError), ClearError) == Reduce(st, ClearError)
  {
  }

  /** A login that succeeds and a logout that succeeds bring the initial state back. */
  lemma LoginThenLogout(session: Session)
    ensures
      var signedIn := Reduce(Reduce(InitialAuth, LoginPending), LoginSettled(Resolved(session)));
      signedIn == AuthState(Some(session.user), Some(session.token), false, None)
      && Reduce(Reduce(signedIn, LogoutPending), LogoutSettled(Resolved(()))) == InitialAuth
  {
  }

  /** A failed login from any state stores the thrown status and message, with the
      defaults where they are missing, and keeps whoever was signed in. */
  lemma FailedLogin(st: AuthState, err: Thrown)
    ensures
      var after := Reduce(Reduce(st, LoginPending), LoginSettled(Threw(err)));
      after.error == Some(ApiError(err.status.GetOr(500), err.message.GetOr("Login failed")))
      && !after.loading && after.user == st.user && after.token == st.token
  {
  }

  /** The slice's state in the store. The reducers assign its fields one by one. */
  class AuthStore {
    var user: Option<AuthUser>
    var token: Option<string>
    var loading: bool
    var error: Option<ApiError>

    function State(): AuthState
      reads this
    {
      AuthState(user, token, loading, error)
    }

    constructor ()
      ensures State() == InitialAuth
    {
      user := None;
      token := None;
      loading := false;
      error := None;
    }

    /** Runs the slice's reducer for `a` on the draft state. */
    method Dispatch(a: Action)
      modifies this
      ensures State() == Reduce(old(State()), a)
    {
      match a {
        case SetCredentials(session) =>
          user := Some(session.user);
          token := Some(session.token);
          error := None;
        case ClearError =>
          error := None;
        case LoginPending =>
          loading := true;
          error := None;
        case LoginFulfilled(session) =>
          loading := false;
          user := Some(session.user);
          token := Some(session.token);
        case LoginRejected(payload) =>
          loading := false;
          error := Some(payload.GetOr(ApiError(500, "Login failed")));
        case LogoutPending =>
          loading := true;
          error := None;
        case LogoutFulfilled =>
          loading := false;
          user := None;
          token := None;
        case LogoutRejected(payload) =>
          loading := false;
          error := Some(payload.GetOr(ApiError(500, "Logout failed")));
      }
    }

    /** `dispatch(login(credentials))` whose backend call ends with `o`: the pending
        action, then the settled one. */
    method Login(credentials: Credentials, o: Outcome<Session>)
      modifies this
      ensures State() == Reduce(Reduce(old(State()), LoginPending), LoginSettled(o))
    {
      Dispatch(LoginPending);
      Dispatch(LoginSettled(o));
    }

    /** `dispatch(logout())` whose backend call ends with `o`. */
    method Logout(o: Outcome<()>)
      modifies this
      ensures State() == Reduce(Reduce(old(State()), LogoutPending), LogoutSettled(o))
    {
      Dispatch(LogoutPending);
      Dispatch(LogoutSettled(o));
    }
  }
}
