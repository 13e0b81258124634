/** The login page's `handleLogin`: validate the form, POST /token, store the
    credential, make a best-effort PUT /users/me, then go to "/". */
module Login {
  import opened Options
  import opened Browser
  import opened Session

  const MissingFieldsMessage := "Please enter both username and password"
  const LoginFailedMessage := "Login failed. Please check your credentials."

  /** The effects of `handleLogin` when the /token call yields `token`. The
      outcome of the PUT /users/me call does not appear: it changes nothing. */
  function LoginRun(username: string, password: string, token: Reply<TokenData>): seq<Effect>
  {
    if username == "" || password == "" then [Alert(MissingFieldsMessage)]
    else [Loading(true), Send(TokenRequest(username, password))] + TokenOutcome(token) + [Loading(false)]
  }

  /** What follows the awaited POST /token: on a reply, the two writes (of
      whatever the fields hold, "undefined" for a missing one), the update
      call and the navigation; on any failure, the generic alert. */
  function TokenOutcome(token: Reply<TokenData>): seq<Effect>
  {
    match token
    case Ok(data) =>
      StoreCredential(Text(data.accessToken), Text(data.tokenType))
      + [Send(UpdateRequest(Text(data.accessToken))), Navigate("/")]
    case _ => [Alert(LoginFailedMessage)]
  }

  class LoginPage {
    const tab: Tab
    var username: string
    var password: string
    var loading: bool

    constructor (tab: Tab)
      ensures this.tab == tab && username == "" && password == "" && !loading
    {
      this.tab := tab;
      username, password, loading := "", "", false;
    }

    /** `handleLogin`. `token` is the outcome of POST /token and `update` that
        of PUT /users/me; the result does not depend on `update`. */
    method HandleLogin(token: Reply<TokenData>, update: Reply<()>)
      requires tab.Valid()
      modifies this`loading, tab
      ensures tab.Valid() && tab.initial == old(tab.initial)
      ensures tab.log == old(tab.log) + LoginRun(username, password, token)
      ensures Snapshot(tab.storage, tab.route)
           == Replay(old(Snapshot(tab.storage, tab.route)), LoginRun(username, password, token))
      ensures loading == if username == "" || password == "" then old(loading) else false
    {
      ghost var before := Snapshot(tab.storage, tab.route);
      if username == "" || password == "" {
        tab.Perform(Alert(MissingFieldsMessage));
        ReplayAppend(tab.initial, old(tab.log), LoginRun(username, password, token));
        return;
      }
      loading := true;
      tab.Perform(Loading(true));
      TryLogin(token, update);
      loading := false;
      tab.Perform(Loading(false));
      ReplayAppend(tab.initial, old(tab.log), LoginRun(username, password, token));
    }

    /** The try block of `handleLogin` with its catch. */
    method TryLogin(token: Reply<TokenData>, update: Reply<()>)
      requires tab.Valid()
      modifies tab
      ensures tab.Valid() && tab.initial == old(tab.initial)
      ensures tab.log == old(tab.log) + [Send(TokenRequest(username, password))] + TokenOutcome(token)
    {
      tab.Perform(Send(TokenRequest(username, password)));
      match token {
        case Ok(data) =>
          var accessToken := Text(data.accessToken);
          tab.Perform(SetItem(TokenKey, accessToken));
          tab.Perform(SetItem(TokenTypeKey, Text(data.tokenType)));
          UpdateUser(tab, accessToken, update);
          tab.Perform(Navigate("/"));
        case _ =>
          tab.Perform(Alert(LoginFailedMessage));
      }
    }
  }

  /** An empty field stops the handler before any request: only the alert,
      no loading flag, storage and route unchanged. */
  lemma MissingFieldsStopEarly(w: Snapshot, username: string, password: string, token: Reply<TokenData>)
    requires username == "" || password == ""
    ensures Requests(LoginRun(username, password, token)) == []
    ensures Replay(w, LoginRun(username, password, token)) == w
    ensures LoginRun(username, password, token) == [Alert(MissingFieldsMessage)]
  {
    ReplayQuiet(w, LoginRun(username, password, token));
  }

  /** If POST /token fails in any way, storage and route are exactly as
      before, the token request is the only request, and the generic message
      is shown. */
  lemma {:induction false} FailedLoginKeepsState(w: Snapshot, username: string, password: string, token: Reply<TokenData>)
    requires username != "" && password != "" && !token.Ok?
    ensures Replay(w, LoginRun(username, password, token)) == w
    ensures Requests(LoginRun(username, password, token)) == [TokenRequest(username, password)]
    ensures Alert(LoginFailedMessage) in LoginRun(username, password, token)
  {
    var run := LoginRun(username, password, token);
    assert run == [Loading(true)] + ([Send(TokenRequest(username, password))] + ([Alert(LoginFailedMessage)] + ([Loading(false)] + [])));
    ReplayQuiet(w, run);
    RequestsCons(Loading(true), [Send(TokenRequest(username, password))] + ([Alert(LoginFailedMessage)] + ([Loading(false)] + [])));
    RequestsCons(Send(TokenRequest(username, password)), [Alert(LoginFailedMessage)] + ([Loading(false)] + []));
    RequestsCons(Alert(LoginFailedMessage), [Loading(false)] + []);
    RequestsCons(Loading(false), []);
  }

  /** A successful POST /token leaves exactly the two credential keys
      overwritten with the reply's fields and the route at "/"; the update
      request carries "Bearer " and the stored token, whatever token_type is. */
  lemma {:induction false} SuccessfulLoginStoresCredential(w: Snapshot, username: string, password: string, data: TokenData)
    requires username != "" && password != ""
    ensures Replay(w, LoginRun(username, password, Ok(data)))
         == Snapshot(w.storage[TokenKey := Text(data.accessToken)][TokenTypeKey := Text(data.tokenType)], "/")
    ensures Requests(LoginRun(username, password, Ok(data)))
         == [TokenRequest(username, password), UpdateRequest(Text(data.accessToken))]
    ensures UpdateRequest(Text(data.accessToken)).authorization
         == Some("Bearer " + Replay(w, LoginRun(username, password, Ok(data))).storage[TokenKey])
  {
    var t := Text(data.accessToken);
    var pre := [Loading(true), Send(TokenRequest(username, password))];
    var outcome := TokenOutcome(Ok(data));
    var last := [Loading(false)];
    assert LoginRun(username, password, Ok(data)) == pre + outcome + last;
    ReplayQuietSuffix(w, pre + outcome, last);
    ReplayQuietPrefix(w, pre, outcome);
    StoreThenGoHome(w, t, Text(data.tokenType), UpdateRequest(t));
    RequestsAppend(pre + outcome, last);
    RequestsAppend(pre, outcome);
    RequestsCons(Loading(true), [Send(TokenRequest(username, password))]);
    RequestsCons(Send(TokenRequest(username, password)), []);
    RequestsCons(Loading(false), []);
  }

  /** The loading flag is raised before POST /token and lowered after
      everything else, on every path past validation. */
  lemma LoginLoadingBrackets(username: string, password: string, token: Reply<TokenData>)
    requires username != "" && password != ""
    ensures Bracketed(LoginRun(username, password, token))
  {
  }

  /** Both writes follow the awaited POST /token. */
  lemma LoginWritesFollowTokenCall(username: string, password: string, token: Reply<TokenData>)
    ensures WritesAfter(LoginRun(username, password, token), TokenRequest(username, password))
  {
  }

  /** A login never leaves one credential key without the other. */
  lemma LoginKeepsPairing(w: Snapshot, username: string, password: string, token: Reply<TokenData>)
    requires Paired(w.storage)
    ensures Paired(Replay(w, LoginRun(username, password, token)).storage)
  {
    if username == "" || password == "" {
      MissingFieldsStopEarly(w, username, password, token);
    } else if token.Ok? {
      SuccessfulLoginStoresCredential(w, username, password, token.data);
    } else {
      FailedLoginKeepsState(w, username, password, token);
    }
  }

  /** As written, a 2xx reply without access_token stores the text
      "undefined", whatever its token_type, and both session guards then
      accept that text as a token. */
  lemma MalformedReplyIsStored(w: Snapshot, username: string, password: string, tokenType: Option<string>)
    requires username != "" && password != ""
    ensures HasToken(Replay(w, LoginRun(username, password, Ok(TokenData(None, tokenType)))).storage)
    ensures Replay(w, LoginRun(username, password, Ok(TokenData(None, tokenType)))).storage[TokenKey] == "undefined"
  {
    SuccessfulLoginStoresCredential(w, username, password, TokenData(None, tokenType));
  }

  /** The concrete exchange: alice / s3cret, /token answers abc123 / bearer. */
  lemma AliceLogsIn(w: Snapshot)
    ensures Replay(w, LoginRun("alice", "s3cret", Ok(TokenData(Some("abc123"), Some("bearer"))))).storage
         == w.storage["token" := "abc123"]["token_type" := "bearer"]
  {
    SuccessfulLoginStoresCredential(w, "alice", "s3cret", TokenData(Some("abc123"), Some("bearer")));
  }
}
