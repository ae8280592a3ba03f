/** The session held by the authentication provider: token, current user,
    the token kept in local storage and the default `Authorization` header.
    Every backend call is an input to the transition that makes it. */
module Auth {
  import opened Wrappers
  import opened JsValue

  datatype AuthState = AuthState(
    token: Option<string>,
    user: Option<JValue>,
    stored: Option<string>,
    header: Option<string>,
    loading: bool)

  /** The provider as mounted: the token comes from storage, nothing is
      loaded yet. */
  function Boot(stored: Option<string>): (r: AuthState)
    ensures r.token == stored && r.stored == stored
    ensures r.user.None? && r.header.None? && r.loading
  {
    AuthState(stored, None, stored, None, true)
  }

  /** `isAuthenticated: !!token`. */
  predicate IsAuthenticated(st: AuthState) {
    st.token.Some? && st.token.value != ""
  }

  /** What an axios call settled with: the response data, or a failure with
      `error.response?.data?.detail`. */
  datatype Backend<T> = Succeeded(data: T) | Rejected(detail: Slot)

  /** The `{token, user}` pair answered by login and registration. */
  datatype Session = Session(token: string, user: JValue)

  /** `{success: true}` or `{success: false, error}`. */
  datatype Outcome = Success | Failure(error: JValue)

  function Bearer(token: string): string {
    "Bearer " + token
  }

  /** `detail || fallback`. */
  function ErrorOf(detail: Slot, fallback: string): (r: JValue)
    ensures Truthy(detail) ==> r == detail.value
    ensures !Truthy(detail) ==> r == JString(fallback)
  {
    Or(detail, Str(fallback)).value
  }

  /** The token, the stored token and the header all tell the same story. */
  predicate Coherent(st: AuthState) {
    && st.stored == st.token
    && (st.header.Some? ==> st.token.Some? && st.header.value == Bearer(st.token.value))
  }

  /** The effect that runs on mount and whenever the token changes, with the
      answer to `GET /users/me` (consulted only with a truthy token). */
  function Init(st: AuthState, me: Backend<JValue>): (r: AuthState)
    ensures !r.loading
    ensures !IsAuthenticated(st) ==> r == st.(loading := false)
    ensures IsAuthenticated(st) && me.Succeeded? ==>
              r.token == st.token && r.stored == st.stored && r.user == Some(me.data)
              && r.header == Some(Bearer(st.token.value))
    // a rejected stored token is dropped everywhere
    ensures IsAuthenticated(st) && me.Rejected? ==>
              !IsAuthenticated(r) && r.token.None? && r.user.None? && r.stored.None? && r.header.None?
    ensures Coherent(st) ==> Coherent(r)
  {
    if !IsAuthenticated(st) then st.(loading := false)
    else
      var withHeader := st.(header := Some(Bearer(st.token.value)));
      match me
      case Succeeded(u) => withHeader.(user := Some(u), loading := false)
      case Rejected(_) => AuthState(None, None, None, None, false)
  }

  /** Login and registration share one transition; only the fallback error
      text differs. */
  function SignIn(st: AuthState, answer: Backend<Session>, fallback: string): (r: (AuthState, Outcome))
    ensures answer.Succeeded? ==>
              && r.1 == Success
              && r.0.token == Some(answer.data.token) && r.0.stored == Some(answer.data.token)
              && r.0.user == Some(answer.data.user) && r.0.header == Some(Bearer(answer.data.token))
              && r.0.loading == st.loading
    ensures answer.Succeeded? ==> (IsAuthenticated(r.0) <==> answer.data.token != "")
    // a failure changes nothing and reports the server's detail or the fallback
    ensures answer.Rejected? ==> r.0 == st && r.1 == Failure(ErrorOf(answer.detail, fallback))
    ensures Coherent(st) ==> Coherent(r.0)
  {
    match answer
    case Succeeded(Session(t, u)) => (st.(token := Some(t), user := Some(u), stored := Some(t), header := Some(Bearer(t))), Success)
    case Rejected(detail) => (st, Failure(ErrorOf(detail, fallback)))
  }

  function Login(st: AuthState, answer: Backend<Session>): (r: (AuthState, Outcome))
    ensures answer.Rejected? ==> r == (st, Failure(ErrorOf(answer.detail, "Login failed")))
    ensures answer.Succeeded? ==> r.1 == Success && r.0.token == Some(answer.data.token) && r.0.stored == r.0.token
  {
    SignIn(st, answer, "Login failed")
  }

  function Register(st: AuthState, answer: Backend<Session>): (r: (AuthState, Outcome))
    ensures answer.Rejected? ==> r == (st, Failure(ErrorOf(answer.detail, "Registration failed")))
    ensures answer.Succeeded? ==> r.1 == Success && r.0.token == Some(answer.data.token) && r.0.stored == r.0.token
  {
    SignIn(st, answer, "Registration failed")
  }

  /** `PUT /users/me`: only the user changes, and only on success. */
  function UpdateProfile(st: AuthState, answer: Backend<JValue>): (r: (AuthState, Outcome))
    ensures r.0.token == st.token && r.0.stored == st.stored && r.0.header == st.header && r.0.loading == st.loading
    ensures answer.Succeeded? ==> r.0.user == Some(answer.data) && r.1 == Success
    ensures answer.Rejected? ==> r.0 == st && r.1 == Failure(ErrorOf(answer.detail, "Profile update failed"))
  {
    match answer
    case Succeeded(u) => (st.(user := Some(u)), Success)
    case Rejected(detail) => (st, Failure(ErrorOf(detail, "Profile update failed")))
  }

  function Logout(st: AuthState): (r: AuthState)
    ensures !IsAuthenticated(r) && Coherent(r)
    ensures r.token.None? && r.user.None? && r.stored.None? && r.header.None?
    ensures r.loading == st.loading
  {
    st.(token := None, user := None, stored := None, header := None)
  }

  lemma LogoutIdempotent(st: AuthState)
    ensures Logout(Logout(st)) == Logout(st)
  {
  }

  /** A session as mounted is coherent, and every transition keeps it so. */
  lemma CoherentThroughout(stored: Option<string>, me: Backend<JValue>, s: Backend<Session>, u: Backend<JValue>)
    ensures Coherent(Boot(stored))
    ensures var a := Init(Boot(stored), me);
            Coherent(a) && Coherent(Login(a, s).0) && Coherent(Register(a, s).0)
            && Coherent(UpdateProfile(a, u).0) && Coherent(Logout(a))
  {
  }
}
