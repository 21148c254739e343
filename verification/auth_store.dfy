/** The client's authentication store, together with the API client's
    token, which decides `isAuthenticated()`. Each API call's outcome is an
    input. */
module AuthStore {
  import opened Wrappers
  import opened SharedTypes

  datatype ApiResult<T> = Ok(value: T) | Err(message: string)

  datatype AuthResponse = AuthResponse(user: User, token: string)

  datatype AuthState = AuthState(
    user: Option<User>,
    isLoading: bool,
    error: Option<string>,
    isAuthenticated: bool,
    /** the API client's token, mirrored in the browser's `auth_token` entry */
    token: Option<string>)

  /** `isAuthenticated()` of the API client: a non-empty token. */
  predicate HasToken(token: Option<string>) {
    token.Some? && |token.value| > 0
  }

  function Init(storedToken: Option<string>): (s: AuthState)
    ensures s.user.None? && !s.isLoading && s.error.None?
    ensures s.isAuthenticated <==> HasToken(storedToken)
    ensures s.token == storedToken
  {
    AuthState(None, false, None, HasToken(storedToken), storedToken)
  }

  /** What the store claims about the session holds: someone signed in
      is authenticated, and being authenticated needs a token. */
  predicate Inv(s: AuthState) {
    (s.user.Some? ==> s.isAuthenticated) && (s.isAuthenticated ==> HasToken(s.token))
  }

  /** Login and registration alike: success stores the token and the user;
      failure records the message, changes nothing else, and is rethrown. */
  function SignIn(s: AuthState, result: ApiResult<AuthResponse>): (r: (AuthState, Option<string>))
    ensures !r.0.isLoading
    ensures result.Ok? ==>
      r == (s.(user := Some(result.value.user), isAuthenticated := true, isLoading := false,
               error := None, token := Some(result.value.token)), None)
    ensures result.Err? ==>
      r == (s.(error := Some(result.message), isLoading := false), Some(result.message))
  {
    match result
    case Ok(resp) =>
      (s.(user := Some(resp.user), isAuthenticated := true, isLoading := false, error := None,
          token := Some(resp.token)), None)
    case Err(m) => (s.(error := Some(m), isLoading := false), Some(m))
  }

  function Login(s: AuthState, result: ApiResult<AuthResponse>): (r: (AuthState, Option<string>))
    ensures r == SignIn(s, result)
    ensures result.Err? ==> r.0.isAuthenticated == s.isAuthenticated && r.1 == Some(result.message)
  {
    SignIn(s, result)
  }

  /** The name given at registration goes to the server only. */
  function Register(s: AuthState, name: Option<string>, result: ApiResult<AuthResponse>): (r: (AuthState, Option<string>))
    ensures r == SignIn(s, result)
    ensures result.Err? ==> r.0.isAuthenticated == s.isAuthenticated && r.1 == Some(result.message)
  {
    SignIn(s, result)
  }

  /** Logout as written: the store forgets the user whatever the outcome,
      but the API client drops its token only after a successful request. */
  function LogoutAsWritten(s: AuthState, result: ApiResult<()>): (r: AuthState)
    ensures r.user.None? && !r.isAuthenticated && !r.isLoading && r.error == s.error
    ensures result.Ok? ==> r.token.None?
    ensures result.Err? ==> r.token == s.token
  {
    var cleared := s.(user := None, isAuthenticated := false, isLoading := false);
    if result.Ok? then cleared.(token := None) else cleared
  }

  /** Logout as intended: local sign-out state, the token included, is
      cleared even when the request fails. */
  function Logout(s: AuthState, result: ApiResult<()>): (r: AuthState)
    ensures r.user.None? && !r.isAuthenticated && !r.isLoading && r.error == s.error
    ensures r.token.None?
  {
    s.(user := None, isAuthenticated := false, isLoading := false, token := None)
  }

  /** Restoring the session: without a token only `isAuthenticated` is
      reset; with one, the current user is fetched, and a failure drops the
      token. */
  function LoadUser(s: AuthState, result: ApiResult<User>): (r: AuthState)
    ensures !HasToken(s.token) ==> r == s.(isAuthenticated := false)
    ensures HasToken(s.token) && result.Ok? ==>
      r == s.(user := Some(result.value), isAuthenticated := true, isLoading := false)
    ensures HasToken(s.token) && result.Err? ==>
      r == s.(user := None, isAuthenticated := false, isLoading := false, token := None)
  {
    if !HasToken(s.token) then s.(isAuthenticated := false)
    else match result
      case Ok(u) => s.(user := Some(u), isAuthenticated := true, isLoading := false)
      case Err(_) => s.(user := None, isAuthenticated := false, isLoading := false, token := None)
  }

  function ClearError(s: AuthState): (r: AuthState)
    ensures r.error.None? && r.(error := s.error) == s
  {
    s.(error := None)
  }

  /** Every transition keeps the invariant, provided the server never
      issues an empty token. */
  lemma InvPreserved(s: AuthState, token: Option<string>, signIn: ApiResult<AuthResponse>,
                     out: ApiResult<()>, me: ApiResult<User>)
    requires Inv(s)
    requires signIn.Ok? ==> |signIn.value.token| > 0
    ensures Inv(Init(token))
    ensures Inv(SignIn(s, signIn).0)
    ensures Inv(Logout(s, out)) && Inv(LogoutAsWritten(s, out))
    ensures Inv(LoadUser(s, me)) && Inv(ClearError(s))
  {
  }

  /** A failed logout request, as written, leaves the token behind, so the
      next session restore signs the same user straight back in. */
  lemma LogoutFailureKeepsSession(s: AuthState, u: User)
    requires HasToken(s.token)
    ensures var out := LogoutAsWritten(s, Err("Request failed"));
      !out.isAuthenticated && LoadUser(out, Ok(u)).isAuthenticated && LoadUser(out, Ok(u)).user == Some(u)
  {
  }

  /** With the intended logout no session survives, whatever the server
      would answer. */
  lemma LogoutEndsSession(s: AuthState, out: ApiResult<()>, me: ApiResult<User>)
    ensures !LoadUser(Logout(s, out), me).isAuthenticated
    ensures LoadUser(Logout(s, out), me).user.None?
  {
  }
}
