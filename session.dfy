/** The pieces Login.tsx and Register.tsx share: the shapes of the requests
    they send, the two credential writes, and `updateUser`, which both files
    define identically. */
module Session {
  import opened Options
  import opened Browser

  /** POST /token with form-urlencoded credentials. */
  function TokenRequest(username: string, password: string): Request
  {
    Request(Post, "/token", FormCredentials(username, password), None)
  }

  /** POST /register with JSON credentials. */
  function RegisterRequest(username: string, password: string): Request
  {
    Request(Post, "/register", JsonCredentials(username, password), None)
  }

  /** PUT /users/me with body {visits: 1}; the scheme is always "Bearer". */
  function UpdateRequest(token: string): Request
  {
    Request(Put, "/users/me", JsonVisits(1), Some("Bearer " + token))
  }

  /** The two localStorage writes, token first. */
  function StoreCredential(token: string, tokenType: string): seq<Effect>
  {
    [SetItem(TokenKey, token), SetItem(TokenTypeKey, tokenType)]
  }

  /** Storing a credential, sending the update and navigating home leaves the
      two keys overwritten and the route at "/", and sends only the update. */
  lemma {:induction false} StoreThenGoHome(w: Snapshot, token: string, tokenType: string, update: Request)
    ensures Replay(w, StoreCredential(token, tokenType) + [Send(update), Navigate("/")])
         == Snapshot(w.storage[TokenKey := token][TokenTypeKey := tokenType], "/")
    ensures Requests(StoreCredential(token, tokenType) + [Send(update), Navigate("/")]) == [update]
  {
    var w1 := w.(storage := w.storage[TokenKey := token]);
    var w2 := w1.(storage := w1.storage[TokenTypeKey := tokenType]);
    var tail := [Navigate("/")];
    var rest := [Send(update)] + tail;
    var after := [SetItem(TokenTypeKey, tokenType)] + rest;
    assert StoreCredential(token, tokenType) + [Send(update), Navigate("/")] == [SetItem(TokenKey, token)] + after;
    ReplayCons(w, SetItem(TokenKey, token), after);
    ReplayCons(w1, SetItem(TokenTypeKey, tokenType), rest);
    ReplayCons(w2, Send(update), tail);
    ReplayCons(w2, Navigate("/"), []);
    RequestsCons(SetItem(TokenKey, token), after);
    RequestsCons(SetItem(TokenTypeKey, tokenType), rest);
    RequestsCons(Send(update), tail);
    RequestsCons(Navigate("/"), []);
  }

  /** `updateUser(token)`: one PUT /users/me; its failure is only logged. */
  method UpdateUser(tab: Tab, token: string, reply: Reply<()>)
    requires tab.Valid()
    modifies tab
    ensures tab.Valid() && tab.initial == old(tab.initial)
    ensures tab.log == old(tab.log) + [Send(UpdateRequest(token))]
    ensures tab.storage == old(tab.storage) && tab.route == old(tab.route)
  {
    tab.Perform(Send(UpdateRequest(token)));
    // Whatever `reply` is, the catch block only writes to the console.
  }
}
