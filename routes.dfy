/** The application root: a tri-state `isAuthenticated` (unknown until the
    mount effect reads "token") and the route table for "/login",
    "/register" and "/". */
module Routes {
  import opened Options
  import opened Browser
  import Login

  datatype Screen = LoginScreen | RegisterScreen | HomeScreen | RedirectTo(path: string) | NoMatch

  /** `Blank` is the `null` the root renders before the check has run. */
  datatype View = Blank | Shows(screen: Screen)

  /** The root's render for path `path`, given its `isAuthenticated` cell. */
  function Render(isAuthenticated: Option<bool>, path: string): (v: View)
    ensures v == Blank <==> isAuthenticated.None?
    ensures v == Shows(HomeScreen) <==> isAuthenticated == Some(true) && path == "/"
    ensures v == Shows(RedirectTo("/login")) <==> isAuthenticated == Some(false) && path == "/"
    ensures isAuthenticated.Some? && path == "/login" ==> v == Shows(LoginScreen)
    ensures isAuthenticated.Some? && path == "/register" ==> v == Shows(RegisterScreen)
  {
    match isAuthenticated
    case None => Blank
    case Some(authenticated) =>
      if path == "/login" then Shows(LoginScreen)
      else if path == "/register" then Shows(RegisterScreen)
      else if path == "/" then Shows(if authenticated then HomeScreen else RedirectTo("/login"))
      else Shows(NoMatch)
  }

  class App {
    const tab: Tab
    var isAuthenticated: Option<bool>

    constructor (tab: Tab)
      ensures this.tab == tab && isAuthenticated == None
    {
      this.tab := tab;
      isAuthenticated := None;
    }

    function Shown(path: string): View
      reads this
    {
      Render(isAuthenticated, path)
    }

    /** The mount effect: `setIsAuthenticated(!!localStorage.getItem("token"))`.
        Only "token" is read; "token_type" plays no part. */
    method CheckSession()
      modifies this
      ensures isAuthenticated == Some(HasToken(tab.storage))
      ensures Shown("/") == Shows(HomeScreen) <==> HasToken(tab.storage)
    {
      var token: Option<string> := if TokenKey in tab.storage then Some(tab.storage[TokenKey]) else None;
      isAuthenticated := Some(token.Some? && token.value != "");
    }
  }

  /** The guard ignores "token_type": writing or removing it never changes
      whether a session is seen. */
  lemma GuardIgnoresTokenType(storage: map<string, string>, tokenType: string)
    ensures HasToken(storage[TokenTypeKey := tokenType]) == HasToken(storage)
    ensures HasToken(storage - {TokenTypeKey}) == HasToken(storage)
  {
  }

  /** As written, the root reads "token" only when it mounts. A user who opens
      the application logged out and then logs in successfully is sent to "/",
      where the root still holds `false` and redirects back to "/login". */
  lemma StaleGuardAfterLogin()
    ensures var before := Snapshot(map[], "/login");
      var after := Replay(before, Login.LoginRun("alice", "s3cret", Ok(TokenData(Some("abc123"), Some("bearer")))));
      && HasToken(after.storage)
      && after.route == "/"
      && Render(Some(HasToken(before.storage)), after.route) == Shows(RedirectTo("/login"))
  {
    Login.SuccessfulLoginStoresCredential(Snapshot(map[], "/login"), "alice", "s3cret", TokenData(Some("abc123"), Some("bearer")));
  }

  /** The evidently intended guard: "token" read afresh at each render. */
  function FreshRender(storage: map<string, string>, path: string): View
  {
    Render(Some(HasToken(storage)), path)
  }

  /** With the fresh guard, a successful login whose reply carries a non-empty
      access_token shows the protected view, and a logout never does. */
  lemma FreshGuardFollowsSession(w: Snapshot, username: string, password: string, data: TokenData)
    requires username != "" && password != "" && data.accessToken != Some("")
    ensures var after := Replay(w, Login.LoginRun(username, password, Ok(data)));
      FreshRender(after.storage, after.route) == Shows(HomeScreen)
    ensures FreshRender(w.storage - {TokenKey, TokenTypeKey}, "/") == Shows(RedirectTo("/login"))
  {
    Login.SuccessfulLoginStoresCredential(w, username, password, data);
  }
}
