/** The application shell: the axios interceptor that signs every request with
    the stored token, the session held in `App` (token in local storage, the
    current user, the start-up check) and the choice of what each route shows. */
module App {

  import opened Common

  // ---------------------------------------------------------------------------
  // The request interceptor

  /** The interceptor's effect on a request's headers: with a truthy stored
      token it sets `Authorization: Bearer <token>` (the header form of section
      2.1 of RFC 6750); otherwise the configuration passes unchanged. */
  function WithAuth(headers: map<string, string>, token: Option<string>): (h: map<string, string>)
    ensures Truthy(token) ==> "Authorization" in h && h["Authorization"] == "Bearer " + token.value
    ensures !Truthy(token) ==> h == headers
    ensures forall k | k != "Authorization" :: (k in h <==> k in headers)
    ensures forall k | k != "Authorization" && k in h :: h[k] == headers[k]
  {
    if Truthy(token) then headers["Authorization" := "Bearer " + token.value] else headers
  }

  /** Signing twice with the same token is signing once. */
  lemma WithAuthIdempotent(headers: map<string, string>, token: Option<string>)
    ensures WithAuth(WithAuth(headers, token), token) == WithAuth(headers, token)
  {
  }

  /** The header carries exactly the token: it can be read back from it. */
  lemma BearerCarriesToken(headers: map<string, string>, token: Option<string>)
    requires Truthy(token)
    ensures WithAuth(headers, token)["Authorization"][..7] == "Bearer "
    ensures WithAuth(headers, token)["Authorization"][7..] == token.value
  {
  }

  /** One call to the backend as it leaves the browser. */
  datatype Call = Call(endpoint: string, headers: map<string, string>)

  // ---------------------------------------------------------------------------
  // Routes

  datatype Path =
    | LoginPath
    | RegisterPath(token: string)
    | ForgotPasswordPath
    | ResetPasswordPath(token: string)
    | MandagenstaatPath
    | HomePath
    | UnknownPath

  /** What the shell renders: the start-up screen, one of the pages, a
      `<Navigate replace>` to another path, or nothing when no route matches. */
  datatype Screen =
    | Loading
    | ShowLogin
    | ShowRegister(token: string)
    | ShowForgotPassword
    | ShowResetPassword(token: string)
    | ShowMandagenstaat
    | ShowAdminDashboard
    | ShowEmployeeDashboard
    | RedirectTo(target: Path)
    | Blank

  /** The pages meant for visitors who are not signed in. */
  predicate IsPublic(p: Path)
  {
    p.LoginPath? || p.RegisterPath? || p.ForgotPasswordPath? || p.ResetPasswordPath?
  }

  predicate IsAdmin(user: Option<Account>)
  {
    user.Some? && user.value.role == "admin"
  }

  /** The pages that need a signed-in user. */
  predicate IsPrivate(s: Screen)
  {
    s.ShowMandagenstaat? || s.ShowAdminDashboard? || s.ShowEmployeeDashboard?
  }

  /** The element each route renders for the current session. */
  function Route(loading: bool, path: Path, user: Option<Account>): (s: Screen)
    ensures loading ==> s == Loading
    ensures !loading && IsPublic(path) ==> (s == RedirectTo(HomePath) <==> user.Some?)
    ensures !loading && (path.HomePath? || path.MandagenstaatPath?) ==> (s == RedirectTo(LoginPath) <==> user.None?)
    ensures !loading && path.HomePath? ==> (s == ShowAdminDashboard <==> IsAdmin(user))
    ensures !loading && path.HomePath? ==> (s == ShowEmployeeDashboard <==> user.Some? && !IsAdmin(user))
    ensures !loading && path.MandagenstaatPath? ==> (s == ShowMandagenstaat <==> IsAdmin(user))
    ensures !loading && path.MandagenstaatPath? ==> (s == RedirectTo(HomePath) <==> user.Some? && !IsAdmin(user))
  {
    if loading then Loading
    else match path
      case LoginPath => if user.Some? then RedirectTo(HomePath) else ShowLogin
      case RegisterPath(t) => if user.Some? then RedirectTo(HomePath) else ShowRegister(t)
      case ForgotPasswordPath => if user.Some? then RedirectTo(HomePath) else ShowForgotPassword
      case ResetPasswordPath(t) => if user.Some? then RedirectTo(HomePath) else ShowResetPassword(t)
      case MandagenstaatPath =>
        if user.None? then RedirectTo(LoginPath)
        else if user.value.role == "admin" then ShowMandagenstaat
        else RedirectTo(HomePath)
      case HomePath =>
        if user.None? then RedirectTo(LoginPath)
        else if user.value.role == "admin" then ShowAdminDashboard
        else ShowEmployeeDashboard
      case UnknownPath => Blank
  }

  /** No path shows a private page without a user, and only an admin ever sees
      the admin pages. */
  lemma PrivatePagesNeedUser(loading: bool, path: Path, user: Option<Account>)
    ensures IsPrivate(Route(loading, path, user)) ==> user.Some?
    ensures Route(loading, path, user) in {ShowAdminDashboard, ShowMandagenstaat} ==> IsAdmin(user)
  {
  }

  /** Redirects never chain: following one lands on a page, for every path and
      every session. */
  lemma RedirectsSettle(path: Path, user: Option<Account>)
    requires Route(false, path, user).RedirectTo?
    ensures !Route(false, Route(false, path, user).target, user).RedirectTo?
  {
  }

  // ---------------------------------------------------------------------------
  // The session

  class Session {
    /** `localStorage.getItem("token")`. */
    var storedToken: Option<string>
    var user: Option<Account>
    var loading: bool
    var calls: seq<Call>

    /** The app starts on the loading screen with whatever token the browser kept. */
    constructor (stored: Option<string>)
      ensures storedToken == stored && user.None? && loading && calls == []
    {
      storedToken := stored;
      user := None;
      loading := true;
      calls := [];
    }

    /** The start-up check: with a stored token, ask `/auth/me` who it belongs
        to; a rejected token is forgotten. The loading screen ends either way. */
    method CheckAuth(reply: Reply<Account>)
      modifies this`storedToken, this`user, this`loading, this`calls
      ensures !loading
      ensures !Truthy(old(storedToken)) ==>
                storedToken == old(storedToken) && user == old(user) && calls == old(calls)
      ensures Truthy(old(storedToken)) ==>
                calls == old(calls) + [Call("/auth/me", WithAuth(map[], old(storedToken)))]
      ensures Truthy(old(storedToken)) && reply.Ok? ==>
                storedToken == old(storedToken) && user == Some(reply.data)
      ensures Truthy(old(storedToken)) && reply.Failed? ==>
                storedToken.None? && user == old(user)
    {
      if Truthy(storedToken) {
        calls := calls + [Call("/auth/me", WithAuth(map[], storedToken))];
        if reply.Ok? {
          user := Some(reply.data);
        } else {
          storedToken := None;
        }
      }
      loading := false;
    }

    /** Signing in (also what registering does): keep the token, set the user. */
    method HandleLogin(account: Account, token: string)
      modifies this`storedToken, this`user
      ensures storedToken == Some(token) && user == Some(account)
      ensures forall p | IsPublic(p) :: Route(false, p, user) == RedirectTo(HomePath)
      ensures token != "" ==> WithAuth(map[], storedToken) == map["Authorization" := "Bearer " + token]
    {
      storedToken := Some(token);
      user := Some(account);
    }

    /** Signing out: forget the token and the user; later calls go unsigned and
        the private pages send the visitor to the login page. */
    method HandleLogout()
      modifies this`storedToken, this`user
      ensures storedToken.None? && user.None?
      ensures forall h :: WithAuth(h, storedToken) == h
      ensures Route(false, HomePath, user) == RedirectTo(LoginPath)
      ensures Route(false, MandagenstaatPath, user) == RedirectTo(LoginPath)
    {
      storedToken := None;
      user := None;
    }
  }
}
