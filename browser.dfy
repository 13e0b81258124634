/** What the pages share: the origin's localStorage, the router's current path
    and the outbound HTTP calls made through the API client. A page handler is
    modelled as the sequence of effects it performs, oldest first; `Replay`
    gives the storage and route those effects leave behind. */
module Browser {
  import opened Options

  /** The two localStorage keys that hold the credential. */
  const TokenKey := "token"
  const TokenTypeKey := "token_type"

  datatype Verb = Post | Put

  /** A request body and its encoding: form-urlencoded credentials (for
      /token), JSON credentials (for /register) or the JSON visit update (for
      PUT /users/me). */
  datatype Body =
    | FormCredentials(username: string, password: string)
    | JsonCredentials(username: string, password: string)
    | JsonVisits(visits: int)

  /** An outbound request, with the Authorization header its caller passes
      explicitly (the API client's own defaults are not part of this model). */
  datatype Request = Request(verb: Verb, path: string, body: Body, authorization: Option<string>)

  /** The JSON body of a non-2xx reply; `detail` may be missing. */
  datatype ErrorBody = ErrorBody(detail: Option<string>)

  /** What an awaited call yields: a 2xx reply with its data, a non-2xx reply
      with the body the server sent (if any), or no reply at all. */
  datatype Reply<T> = Ok(data: T) | HttpError(status: int, body: Option<ErrorBody>) | NoResponse

  /** The data of a /token reply; either field may be missing from the JSON. */
  datatype TokenData = TokenData(accessToken: Option<string>, tokenType: Option<string>)

  /** One observable step of a handler. */
  datatype Effect =
    | Loading(on: bool)
    | Send(request: Request)
    | SetItem(key: string, value: string)
    | RemoveItem(key: string)
    | Navigate(path: string)
    | Alert(message: string)

  /** The state a handler can leave behind: localStorage and the current path. */
  datatype Snapshot = Snapshot(storage: map<string, string>, route: string)

  /** JavaScript's conversion of a possibly-undefined field to a string, as
      localStorage.setItem and template literals perform it. */
  function Text(field: Option<string>): string
  {
    match field
    case Some(s) => s
    case None => "undefined"
  }

  function Step(w: Snapshot, e: Effect): Snapshot
  {
    match e
    case SetItem(k, v) => w.(storage := w.storage[k := v])
    case RemoveItem(k) => w.(storage := w.storage - {k})
    case Navigate(p) => w.(route := p)
    case _ => w
  }

  /** The snapshot left by performing `effects` in order, starting from `w`. */
  function Replay(w: Snapshot, effects: seq<Effect>): Snapshot
    decreases |effects|
  {
    if effects == [] then w else Replay(Step(w, effects[0]), effects[1..])
  }

  /** The requests sent by `effects`, in order. */
  function Requests(effects: seq<Effect>): seq<Request>
    decreases |effects|
  {
    if effects == [] then []
    else (if effects[0].Send? then [effects[0].request] else []) + Requests(effects[1..])
  }

  /** Effects that touch neither localStorage nor the route. */
  predicate Quiet(effects: seq<Effect>)
  {
    forall i :: 0 <= i < |effects| ==> effects[i].Loading? || effects[i].Send? || effects[i].Alert?
  }

  /** The loading flag goes up first, comes down last and does not move in
      between, so every request of the run is made while it is up. */
  predicate Bracketed(effects: seq<Effect>)
  {
    && 2 <= |effects|
    && effects[0] == Loading(true)
    && effects[|effects| - 1] == Loading(false)
    && forall i :: 0 < i < |effects| - 1 ==> !effects[i].Loading?
  }

  /** Every storage write of `effects` comes after every sending of `request`. */
  predicate WritesAfter(effects: seq<Effect>, request: Request)
  {
    forall i, j :: 0 <= i < |effects| && 0 <= j < |effects| && effects[i].SetItem? && effects[j] == Send(request) ==> j < i
  }

  /** The session guards' test: a "token" entry that is present and non-empty. */
  predicate HasToken(storage: map<string, string>)
  {
    TokenKey in storage && storage[TokenKey] != ""
  }

  /** Both credential keys present, or neither. */
  predicate Paired(storage: map<string, string>)
  {
    (TokenKey in storage) <==> (TokenTypeKey in storage)
  }

  lemma {:induction false} ReplayAppend(w: Snapshot, a: seq<Effect>, b: seq<Effect>)
    ensures Replay(w, a + b) == Replay(Replay(w, a), b)
    decreases |a|
  {
    if a == [] {
      assert a + b == b;
    } else {
      assert (a + b)[0] == a[0];
      assert (a + b)[1..] == a[1..] + b;
      ReplayAppend(Step(w, a[0]), a[1..], b);
    }
  }

  lemma ReplayCons(w: Snapshot, e: Effect, rest: seq<Effect>)
    ensures Replay(w, [e] + rest) == Replay(Step(w, e), rest)
  {
    assert ([e] + rest)[1..] == rest;
  }

  lemma RequestsCons(e: Effect, rest: seq<Effect>)
    ensures Requests([e] + rest) == (if e.Send? then [e.request] else []) + Requests(rest)
  {
    assert ([e] + rest)[1..] == rest;
  }

  /** A run that writes nothing before some point and never sends `request`
      after it has all its writes after that request. */
  lemma WritesAfterSplit(a: seq<Effect>, b: seq<Effect>, request: Request)
    requires forall i :: 0 <= i < |a| ==> !a[i].SetItem?
    requires forall j :: 0 <= j < |b| ==> b[j] != Send(request)
    ensures WritesAfter(a + b, request)
  {
  }

  lemma {:induction false} ReplayQuiet(w: Snapshot, effects: seq<Effect>)
    requires Quiet(effects)
    ensures Replay(w, effects) == w
    decreases |effects|
  {
    if effects != [] {
      assert Step(w, effects[0]) == w;
      assert forall i :: 0 <= i < |effects[1..]| ==> effects[1..][i] == effects[i + 1];
      ReplayQuiet(w, effects[1..]);
    }
  }

  lemma ReplayQuietPrefix(w: Snapshot, a: seq<Effect>, b: seq<Effect>)
    requires Quiet(a)
    ensures Replay(w, a + b) == Replay(w, b)
  {
    ReplayAppend(w, a, b);
    ReplayQuiet(w, a);
  }

  lemma ReplayQuietSuffix(w: Snapshot, a: seq<Effect>, b: seq<Effect>)
    requires Quiet(b)
    ensures Replay(w, a + b) == Replay(w, a)
  {
    ReplayAppend(w, a, b);
    ReplayQuiet(Replay(w, a), b);
  }

  lemma {:induction false} RequestsAppend(a: seq<Effect>, b: seq<Effect>)
    ensures Requests(a + b) == Requests(a) + Requests(b)
    decreases |a|
  {
    if a == [] {
      assert a + b == b;
    } else {
      assert (a + b)[0] == a[0];
      assert (a + b)[1..] == a[1..] + b;
      RequestsAppend(a[1..], b);
    }
  }

  /** The browser tab: localStorage and the current path, which handlers
      change in place, and the ghost history of every effect performed. */
  class Tab {
    var storage: map<string, string>
    var route: string
    ghost var log: seq<Effect>
    ghost var initial: Snapshot

    ghost predicate Valid()
      reads this
    {
      Snapshot(storage, route) == Replay(initial, log)
    }

    constructor (storage: map<string, string>, route: string)
      ensures Valid()
      ensures this.storage == storage && this.route == route && log == []
    {
      this.storage := storage;
      this.route := route;
      log := [];
      initial := Snapshot(storage, route);
    }

    /** Performs one effect: a storage write or removal, a navigation, or a
        step (loading flag, request, alert) that leaves both unchanged. */
    method Perform(e: Effect)
      requires Valid()
      modifies this
      ensures Valid() && initial == old(initial)
      ensures log == old(log) + [e]
      ensures Snapshot(storage, route) == Step(old(Snapshot(storage, route)), e)
    {
      match e {
        case SetItem(k, v) => storage := storage[k := v];
        case RemoveItem(k) => storage := storage - {k};
        case Navigate(p) => route := p;
        case _ =>
      }
      ReplayAppend(initial, log, [e]);
      assert [e][1..] == [];
      log := log + [e];
    }
  }
}
