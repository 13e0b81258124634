/** The register page's `handleRegister`: validate the form, POST /register,
    POST /token twice, store the token of the second reply with the
    token_type of the first, make a best-effort PUT /users/me, go to "/". */
module Register {
  import opened Options
  import opened Browser
  import opened Session

  const MissingFieldsMessage := "Please fill in all fields."

  /** The alert for a failed call: the server's detail when the error came
      with a response body (the text "undefined" when that body has no
      detail), otherwise the bare message. */
  function FailureMessage<T>(failure: Reply<T>): (message: string)
    requires !failure.Ok?
    ensures failure.NoResponse? || (failure.HttpError? && failure.body.None?) ==> message == "Registration failed"
    ensures failure.HttpError? && failure.body.Some? && failure.body.value.detail.Some?
            ==> message == "Registration failed: " + failure.body.value.detail.value
    ensures failure.HttpError? && failure.body.Some? && failure.body.value.detail.None?
            ==> message == "Registration failed: undefined"
  {
    match failure
    case HttpError(_, Some(body)) => "Registration failed: " + Text(body.detail)
    case _ => "Registration failed"
  }

  /** The effects of `handleRegister` for the outcomes of POST /register and
      of the first and second POST /token. */
  function RegisterRun(username: string, password: string,
                       registered: Reply<()>, first: Reply<TokenData>, second: Reply<TokenData>): seq<Effect>
  {
    if username == "" || password == "" then [Alert(MissingFieldsMessage)]
    else [Loading(true)] + Attempt(username, password, registered, first, second) + [Loading(false)]
  }

  /** The body of the try block and its catch: each await either goes on to
      the next step or ends in the catch's alert. */
  function Attempt(username: string, password: string,
                   registered: Reply<()>, first: Reply<TokenData>, second: Reply<TokenData>): seq<Effect>
  {
    [Send(RegisterRequest(username, password))]
    + if !registered.Ok? then [Alert(FailureMessage(registered))]
      else [Send(TokenRequest(username, password))] + AfterFirstToken(username, password, first, second)
  }

  function AfterFirstToken(username: string, password: string, first: Reply<TokenData>, second: Reply<TokenData>): seq<Effect>
  {
    if !first.Ok? then [Alert(FailureMessage(first))]
    else [Send(TokenRequest(username, password))] + AfterSecondToken(first.data, second)
  }

  function AfterSecondToken(first: TokenData, second: Reply<TokenData>): seq<Effect>
  {
    if !second.Ok? then [Alert(FailureMessage(second))]
    else StoreCredential(Text(second.data.accessToken), Text(first.tokenType))
         + [Send(UpdateRequest(Text(second.data.accessToken))), Navigate("/")]
  }

  class RegisterPage {
    const tab: Tab
    var username: string
    var password: string
    var loading: bool

    constructor (tab: Tab)
      ensures this.tab == tab && username == "" && password == "" && !loading
    {
      this.tab := tab;
      username, password, loading := "", "", false;
    }

    /** `handleRegister`. The three POST outcomes and that of PUT /users/me are
        parameters; the result does not depend on `update`. */
    method HandleRegister(registered: Reply<()>, first: Reply<TokenData>, second: Reply<TokenData>, update: Reply<()>)
      requires tab.Valid()
      modifies this`loading, tab
      ensures tab.Valid() && tab.initial == old(tab.initial)
      ensures tab.log == old(tab.log) + RegisterRun(username, password, registered, first, second)
      ensures Snapshot(tab.storage, tab.route)
           == Replay(old(Snapshot(tab.storage, tab.route)), RegisterRun(username, password, registered, first, second))
      ensures loading == if username == "" || password == "" then old(loading) else false
    {
      if username == "" || password == "" {
        tab.Perform(Alert(MissingFieldsMessage));
        ReplayAppend(tab.initial, old(tab.log), RegisterRun(username, password, registered, first, second));
        return;
      }
      loading := true;
      tab.Perform(Loading(true));
      TryRegister(registered, first, second, update);
      loading := false;
      tab.Perform(Loading(false));
      ReplayAppend(tab.initial, old(tab.log), RegisterRun(username, password, registered, first, second));
    }

    /** The try block of `handleRegister` with its catch. */
    method TryRegister(registered: Reply<()>, first: Reply<TokenData>, second: Reply<TokenData>, update: Reply<()>)
      requires tab.Valid()
      modifies tab
      ensures tab.Valid() && tab.initial == old(tab.initial)
      ensures tab.log == old(tab.log) + Attempt(username, password, registered, first, second)
    {
      tab.Perform(Send(RegisterRequest(username, password)));
      if !registered.Ok? {
        tab.Perform(Alert(FailureMessage(registered)));
        return;
      }
      tab.Perform(Send(TokenRequest(username, password)));
      TryTokens(first, second, update);
    }

    /** The rest of the try block once POST /register has succeeded and the
        first POST /token has been sent. */
    method TryTokens(first: Reply<TokenData>, second: Reply<TokenData>, update: Reply<()>)
      requires tab.Valid()
      modifies tab
      ensures tab.Valid() && tab.initial == old(tab.initial)
      ensures tab.log == old(tab.log) + AfterFirstToken(username, password, first, second)
    {
      if !first.Ok? {
        tab.Perform(Alert(FailureMessage(first)));
        return;
      }
      tab.Perform(Send(TokenRequest(username, password)));
      if !second.Ok? {
        tab.Perform(Alert(FailureMessage(second)));
        return;
      }
      var accessToken := Text(second.data.accessToken);
      tab.Perform(SetItem(TokenKey, accessToken));
      tab.Perform(SetItem(TokenTypeKey, Text(first.data.tokenType)));
      UpdateUser(tab, accessToken, update);
      tab.Perform(Navigate("/"));
    }
  }

  /** An empty field: only the alert; no request, no loading flag, storage and
      route unchanged. */
  lemma MissingFieldsStopEarly(w: Snapshot, username: string, password: string,
                               registered: Reply<()>, first: Reply<TokenData>, second: Reply<TokenData>)
    requires username == "" || password == ""
    ensures Requests(RegisterRun(username, password, registered, first, second)) == []
    ensures Replay(w, RegisterRun(username, password, registered, first, second)) == w
    ensures RegisterRun(username, password, registered, first, second) == [Alert(MissingFieldsMessage)]
  {
    ReplayQuiet(w, RegisterRun(username, password, registered, first, second));
  }

  /** A failed POST /register: it is the only request (neither /token call is
      made), storage and route are unchanged, and the alert is derived from
      that failure. */
  lemma {:induction false} RejectedRegistrationStops(w: Snapshot, username: string, password: string,
                                                     registered: Reply<()>, first: Reply<TokenData>, second: Reply<TokenData>)
    requires username != "" && password != "" && !registered.Ok?
    ensures Requests(RegisterRun(username, password, registered, first, second)) == [RegisterRequest(username, password)]
    ensures Replay(w, RegisterRun(username, password, registered, first, second)) == w
    ensures Alert(FailureMessage(registered)) in RegisterRun(username, password, registered, first, second)
  {
    var alert := Alert(FailureMessage(registered));
    var run := RegisterRun(username, password, registered, first, second);
    assert run == [Loading(true)] + ([Send(RegisterRequest(username, password))] + ([alert] + ([Loading(false)] + [])));
    ReplayQuiet(w, run);
    RequestsCons(Loading(true), [Send(RegisterRequest(username, password))] + ([alert] + ([Loading(false)] + [])));
    RequestsCons(Send(RegisterRequest(username, password)), [alert] + ([Loading(false)] + []));
    RequestsCons(alert, [Loading(false)] + []);
    RequestsCons(Loading(false), []);
  }

  /** POST /register succeeds but the first POST /token fails: the second
      /token call is not made, the alert is derived from that failure, and
      storage and route are unchanged. */
  lemma {:induction false} FirstTokenFailureStops(w: Snapshot, username: string, password: string,
                                                  first: Reply<TokenData>, second: Reply<TokenData>)
    requires username != "" && password != "" && !first.Ok?
    ensures Requests(RegisterRun(username, password, Ok(()), first, second))
         == [RegisterRequest(username, password), TokenRequest(username, password)]
    ensures Replay(w, RegisterRun(username, password, Ok(()), first, second)) == w
    ensures Alert(FailureMessage(first)) in RegisterRun(username, password, Ok(()), first, second)
  {
    var alert := Alert(FailureMessage(first));
    var reg, req := Send(RegisterRequest(username, password)), Send(TokenRequest(username, password));
    var run := RegisterRun(username, password, Ok(()), first, second);
    assert run == [Loading(true)] + ([reg] + ([req] + ([alert] + ([Loading(false)] + []))));
    ReplayQuiet(w, run);
    RequestsCons(Loading(true), [reg] + ([req] + ([alert] + ([Loading(false)] + []))));
    RequestsCons(reg, [req] + ([alert] + ([Loading(false)] + [])));
    RequestsCons(req, [alert] + ([Loading(false)] + []));
    RequestsCons(alert, [Loading(false)] + []);
    RequestsCons(Loading(false), []);
  }

  /** POST /register and the first POST /token succeed but the second fails:
      three requests were made, the alert is derived from the second failure,
      and storage and route are unchanged (the first reply is discarded). */
  lemma {:induction false} SecondTokenFailureStops(w: Snapshot, username: string, password: string,
                                                   first: TokenData, second: Reply<TokenData>)
    requires username != "" && password != "" && !second.Ok?
    ensures Requests(RegisterRun(username, password, Ok(()), Ok(first), second))
         == [RegisterRequest(username, password), TokenRequest(username, password), TokenRequest(username, password)]
    ensures Replay(w, RegisterRun(username, password, Ok(()), Ok(first), second)) == w
    ensures Alert(FailureMessage(second)) in RegisterRun(username, password, Ok(()), Ok(first), second)
  {
    var alert := Alert(FailureMessage(second));
    var reg, req := Send(RegisterRequest(username, password)), Send(TokenRequest(username, password));
    var run := RegisterRun(username, password, Ok(()), Ok(first), second);
    assert run == [Loading(true)] + ([reg] + ([req] + ([req] + ([alert] + ([Loading(false)] + [])))));
    ReplayQuiet(w, run);
    RequestsCons(Loading(true), [reg] + ([req] + ([req] + ([alert] + ([Loading(false)] + [])))));
    RequestsCons(reg, [req] + ([req] + ([alert] + ([Loading(false)] + []))));
    RequestsCons(req, [req] + ([alert] + ([Loading(false)] + [])));
    RequestsCons(req, [alert] + ([Loading(false)] + []));
    RequestsCons(alert, [Loading(false)] + []);
    RequestsCons(Loading(false), []);
  }

  /** If any of the three POSTs fails, storage and route are unchanged. */
  lemma {:induction false} AnyFailureKeepsState(w: Snapshot, username: string, password: string,
                                                registered: Reply<()>, first: Reply<TokenData>, second: Reply<TokenData>)
    requires !(registered.Ok? && first.Ok? && second.Ok?)
    ensures Replay(w, RegisterRun(username, password, registered, first, second)) == w
  {
    var run := RegisterRun(username, password, registered, first, second);
    assert forall i :: 0 <= i < |run| ==> !run[i].SetItem? && !run[i].RemoveItem? && !run[i].Navigate?;
    ReplayQuiet(w, run);
  }

  /** All three POSTs succeed: the stored token is the second reply's
      access_token, the stored token_type the first reply's token_type, the
      route is "/", and the requests are /register, /token, /token and the
      update carrying the stored token. */
  lemma {:induction false} SuccessfulRegistrationMixesReplies(w: Snapshot, username: string, password: string,
                                                              first: TokenData, second: TokenData)
    requires username != "" && password != ""
    ensures Replay(w, RegisterRun(username, password, Ok(()), Ok(first), Ok(second)))
         == Snapshot(w.storage[TokenKey := Text(second.accessToken)][TokenTypeKey := Text(first.tokenType)], "/")
    ensures Requests(RegisterRun(username, password, Ok(()), Ok(first), Ok(second)))
         == [RegisterRequest(username, password), TokenRequest(username, password),
             TokenRequest(username, password), UpdateRequest(Text(second.accessToken))]
  {
    var t := Text(second.accessToken);
    var reg, req := RegisterRequest(username, password), TokenRequest(username, password);
    var stored := AfterSecondToken(first, Ok(second));
    var a3 := [Send(req)] + stored;
    var a2 := [Send(req)] + a3;
    var a1 := [Send(reg)] + a2;
    var last := [Loading(false)];
    assert AfterFirstToken(username, password, Ok(first), Ok(second)) == a3;
    assert Attempt(username, password, Ok(()), Ok(first), Ok(second)) == a1;
    assert RegisterRun(username, password, Ok(()), Ok(first), Ok(second)) == [Loading(true)] + a1 + last;
    ReplayQuietSuffix(w, [Loading(true)] + a1, last);
    ReplayCons(w, Loading(true), a1);
    ReplayCons(w, Send(reg), a2);
    ReplayCons(w, Send(req), a3);
    ReplayCons(w, Send(req), stored);
    StoreThenGoHome(w, t, Text(first.tokenType), UpdateRequest(t));
    RequestsAppend([Loading(true)] + a1, last);
    RequestsCons(Loading(true), a1);
    RequestsCons(Send(reg), a2);
    RequestsCons(Send(req), a3);
    RequestsCons(Send(req), stored);
    RequestsCons(Loading(false), []);
  }

  /** Both writes follow all three awaited POSTs. */
  lemma RegisterWritesFollowCalls(username: string, password: string,
                                  registered: Reply<()>, first: Reply<TokenData>, second: Reply<TokenData>)
    ensures WritesAfter(RegisterRun(username, password, registered, first, second), RegisterRequest(username, password))
    ensures WritesAfter(RegisterRun(username, password, registered, first, second), TokenRequest(username, password))
  {
    var run := RegisterRun(username, password, registered, first, second);
    if username != "" && password != "" && registered.Ok? && first.Ok? && second.Ok? {
      var reg, req := RegisterRequest(username, password), TokenRequest(username, password);
      var t := Text(second.data.accessToken);
      var calls := [Loading(true), Send(reg), Send(req), Send(req)];
      var rest := StoreCredential(t, Text(first.data.tokenType)) + [Send(UpdateRequest(t)), Navigate("/"), Loading(false)];
      assert run == calls + rest;
      WritesAfterSplit(calls, rest, reg);
      WritesAfterSplit(calls, rest, req);
    } else {
      assert forall i :: 0 <= i < |run| ==> !run[i].SetItem?;
      assert run + [] == run;
      WritesAfterSplit(run, [], RegisterRequest(username, password));
      WritesAfterSplit(run, [], TokenRequest(username, password));
    }
  }

  /** The loading flag is raised before POST /register and lowered last, on
      every path past validation. */
  lemma RegisterLoadingBrackets(username: string, password: string,
                                registered: Reply<()>, first: Reply<TokenData>, second: Reply<TokenData>)
    requires username != "" && password != ""
    ensures Bracketed(RegisterRun(username, password, registered, first, second))
  {
  }

  /** A registration never leaves one credential key without the other. */
  lemma RegisterKeepsPairing(w: Snapshot, username: string, password: string,
                             registered: Reply<()>, first: Reply<TokenData>, second: Reply<TokenData>)
    requires Paired(w.storage)
    ensures Paired(Replay(w, RegisterRun(username, password, registered, first, second)).storage)
  {
    if registered.Ok? && first.Ok? && second.Ok? && username != "" && password != "" {
      SuccessfulRegistrationMixesReplies(w, username, password, first.data, second.data);
    } else if username == "" || password == "" {
      MissingFieldsStopEarly(w, username, password, registered, first, second);
    } else {
      AnyFailureKeepsState(w, username, password, registered, first, second);
    }
  }

  /** The server's answer to a taken name: the alert quotes its detail, no
      token is requested and nothing is stored. */
  lemma TakenUsernameScenario(w: Snapshot, first: Reply<TokenData>, second: Reply<TokenData>)
    ensures var run := RegisterRun("alice", "s3cret", HttpError(400, Some(ErrorBody(Some("Username already registered")))), first, second);
      && Alert("Registration failed: Username already registered") in run
      && Requests(run) == [RegisterRequest("alice", "s3cret")]
      && Replay(w, run) == w
  {
    assert FailureMessage<()>(HttpError(400, Some(ErrorBody(Some("Username already registered")))))
        == "Registration failed: Username already registered";
    RejectedRegistrationStops(w, "alice", "s3cret", HttpError(400, Some(ErrorBody(Some("Username already registered")))), first, second);
  }
}
