/**
 * frontend/src/App.jsx: the route table and its two guards, as a function from
 * the path and the auth store's flags to what is rendered.
 */
module AppRoutes {
  import opened Common
  import opened Text

  const RESET_PREFIX := "/reset-password/"

  /** The page a route renders. */
  datatype Screen =
    | Dashboard | SignUp | Login | ForgotPassword | ResetPassword(token: string)
    | Profile | Upi | Sms | Qr | Url | Phone | Tweets

  /** Which wrapper the route's element sits in. */
  datatype Guard = Open | GuestOnly | Protected

  /** What `App` returns. */
  datatype Rendered = Spinner | Show(screen: Screen) | Redirect(to: string) | NotFound

  /** The path each screen's `<Route>` is declared with, `:token` filled in. */
  function PathOf(screen: Screen): string {
    match screen
    case Dashboard => "/"
    case SignUp => "/signup"
    case Login => "/login"
    case ForgotPassword => "/forgot-password"
    case ResetPassword(token) => RESET_PREFIX + token
    case Profile => "/profile"
    case Upi => "/upi"
    case Sms => "/sms"
    case Qr => "/qr"
    case Url => "/url"
    case Phone => "/phone"
    case Tweets => "/tweets"
  }

  /** `path` has the shape `/reset-password/:token`, the token one non-empty segment. */
  predicate IsResetPath(path: string) {
    StartsWith(path, RESET_PREFIX) && |path| > |RESET_PREFIX| && '/' !in path[|RESET_PREFIX|..]
  }

  /**
   * The `<Route>` list (App.jsx, lines 52-143) with exact path comparison;
   * `:token` is one non-empty segment.
   */
  function MatchRoute(path: string): (m: Option<Screen>)
    ensures m.Some? ==> PathOf(m.value) == path
    ensures m.Some? && m.value.ResetPassword? ==> m.value.token != [] && '/' !in m.value.token
    ensures m.None? ==> !IsResetPath(path)
    ensures m.None? ==> forall screen: Screen :: !screen.ResetPassword? ==> PathOf(screen) != path
  {
    if path == "/" then Some(Dashboard)
    else if path == "/signup" then Some(SignUp)
    else if path == "/login" then Some(Login)
    else if path == "/forgot-password" then Some(ForgotPassword)
    else if path == "/profile" then Some(Profile)
    else if path == "/upi" then Some(Upi)
    else if path == "/sms" then Some(Sms)
    else if path == "/qr" then Some(Qr)
    else if path == "/url" then Some(Url)
    else if path == "/phone" then Some(Phone)
    else if path == "/tweets" then Some(Tweets)
    else if IsResetPath(path) then
      assert path == RESET_PREFIX + path[|RESET_PREFIX|..];
      Some(ResetPassword(path[|RESET_PREFIX|..]))
    else None
  }

  /** `RedirectAuthenticatedUser` wraps the auth pages, `ProtectedRoute` the account and detector pages. */
  function GuardOf(screen: Screen): (g: Guard)
    ensures g == GuestOnly <==> screen in {SignUp, Login, ForgotPassword} || screen.ResetPassword?
    ensures g == Open <==> screen in {Dashboard, Tweets}
  {
    match screen
    case Dashboard => Open
    case Tweets => Open
    case SignUp => GuestOnly
    case Login => GuestOnly
    case ForgotPassword => GuestOnly
    case ResetPassword(_) => GuestOnly
    case _ => Protected
  }

  /**
   * `App`: the spinner while the session is being checked, else the matching
   * route through its guard, else the 404 text.
   */
  function Render(path: string, isAuthenticated: bool, isCheckingAuth: bool): (r: Rendered)
    ensures r == Spinner <==> isCheckingAuth
    ensures r == NotFound <==> !isCheckingAuth && MatchRoute(path).None?
    ensures r.Show? ==> Some(r.screen) == MatchRoute(path)
    ensures r.Redirect? ==> r.to in {"/", "/login"}
    ensures !isCheckingAuth && MatchRoute(path).Some? && GuardOf(MatchRoute(path).value) == Open ==>
      r == Show(MatchRoute(path).value)
  {
    if isCheckingAuth then Spinner
    else match MatchRoute(path)
      case None => NotFound
      case Some(screen) =>
        match GuardOf(screen)
        case Open => Show(screen)
        case Protected => if isAuthenticated then Show(screen) else Redirect("/login")
        case GuestOnly => if isAuthenticated then Redirect("/") else Show(screen)
  }

  /** A protected page shows exactly when the user is signed in, and otherwise sends them to the login page. */
  lemma ProtectedNeedsAuth(path: string, isAuthenticated: bool)
    requires MatchRoute(path).Some? && GuardOf(MatchRoute(path).value) == Protected
    ensures Render(path, isAuthenticated, false).Show? <==> isAuthenticated
    ensures !isAuthenticated ==> Render(path, isAuthenticated, false) == Redirect("/login")
  {
  }

  /** An auth page shows exactly when nobody is signed in, and otherwise sends the user home. */
  lemma GuestOnlyNeedsNoAuth(path: string, isAuthenticated: bool)
    requires MatchRoute(path).Some? && GuardOf(MatchRoute(path).value) == GuestOnly
    ensures Render(path, isAuthenticated, false).Show? <==> !isAuthenticated
    ensures isAuthenticated ==> Render(path, isAuthenticated, false) == Redirect("/")
  {
  }

  /** The six detector and account paths are the protected ones. */
  lemma ProtectedPaths()
    ensures forall p :: p in ["/profile", "/upi", "/sms", "/qr", "/url", "/phone"] ==>
      MatchRoute(p).Some? && GuardOf(MatchRoute(p).value) == Protected
    ensures MatchRoute("/").Some? && GuardOf(MatchRoute("/").value) == Open
    ensures MatchRoute("/tweets").Some? && GuardOf(MatchRoute("/tweets").value) == Open
  {
  }

  /** Each screen's declared path leads back to that screen: the table has no shadowed route. */
  lemma {:induction false} MatchPathOf(screen: Screen)
    requires screen.ResetPassword? ==> screen.token != [] && '/' !in screen.token
    ensures MatchRoute(PathOf(screen)) == Some(screen)
  {
    if screen.ResetPassword? {
      var path := PathOf(screen);
      assert path[..|RESET_PREFIX|] == RESET_PREFIX;
      assert path[|RESET_PREFIX|..] == screen.token;
    }
  }

  /** The three auth paths are guest-only, and `/` and `/tweets` show whether or not anyone is signed in. */
  lemma GuestOnlyAndOpenPaths(isAuthenticated: bool)
    ensures forall p :: p in ["/signup", "/login", "/forgot-password"] ==>
      MatchRoute(p).Some? && GuardOf(MatchRoute(p).value) == GuestOnly
    ensures Render("/", isAuthenticated, false) == Show(Dashboard)
    ensures Render("/tweets", isAuthenticated, false) == Show(Tweets)
  {
  }

  /** Every redirect lands on a page that shows for the same session: the guards never bounce back and forth. */
  lemma RedirectSettles(path: string, isAuthenticated: bool)
    requires Render(path, isAuthenticated, false).Redirect?
    ensures Render(Render(path, isAuthenticated, false).to, isAuthenticated, false).Show?
  {
    if isAuthenticated {
      assert MatchRoute("/") == Some(Dashboard);
    } else {
      assert MatchRoute("/login") == Some(Login);
    }
  }

  /** A reset link shows its token to a visitor who is not signed in. */
  lemma ResetLinkCarriesToken(token: string)
    requires token != [] && '/' !in token
    ensures Render(RESET_PREFIX + token, false, false) == Show(ResetPassword(token))
  {
    var path := RESET_PREFIX + token;
    assert path[..|RESET_PREFIX|] == RESET_PREFIX;
    assert path[|RESET_PREFIX|..] == token;
  }
}
