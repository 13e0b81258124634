/** The FastAPI service over its `users` table: password authentication,
    access-token creation, the bearer-token dependency that counts visits,
    and the register, read, update and delete endpoints. The table is a map
    from username (a unique column) to the rest of the row. bcrypt hashing,
    JWT encoding and the clock are outside the model: a hash arrives as a
    parameter, verification is a function parameter, and a presented token
    arrives already decoded (None when decoding raised). */
module Users {
  import opened Options

  datatype Row = Row(id: int, hashedPassword: string, visits: int)

  datatype UserInDB = UserInDB(id: int, username: string, hashedPassword: string, visits: int)

  /** The public view returned by the /users/me endpoints. */
  datatype User = User(id: int, username: string, visits: int)

  /** A JWT claim value: text, or an expiry instant in minutes. */
  datatype Claim = TextClaim(text: string) | Expiry(minute: int)

  /** The /token reply: `claims` is what access_token encodes. */
  datatype Token = Token(claims: map<string, Claim>, tokenType: string)

  /** An HTTPException; `bearerChallenge` is the `WWW-Authenticate: Bearer` header. */
  datatype Failure = Failure(status: int, detail: string, bearerChallenge: bool)

  datatype Result<T> = Ok(value: T) | Err(failure: Failure)

  /** The PUT /users/me body; it has no `visits` field, so a client's
      {visits: 1} parses to two absent fields. */
  datatype UserUpdate = UserUpdate(username: Option<string>, password: Option<string>)

  /** One `column = %s` entry of the UPDATE statement. */
  datatype Assignment = SetUsername(username: string) | SetPassword(hashedPassword: string)

  const DefaultExpiryMinutes := 15
  const IncorrectLogin := Failure(401, "Incorrect username or password", true)
  const InvalidCredentials := Failure(401, "Could not validate credentials", true)
  const UsernameRegistered := Failure(400, "Username already registered", false)
  const UsernameTaken := Failure(400, "Username already taken", false)

  /** The primary key: no two rows share an id. */
  predicate UniqueIds(rows: map<string, Row>)
  {
    forall u, v :: u in rows && v in rows && u != v ==> rows[u].id != rows[v].id
  }

  /** AUTO_INCREMENT: every id is positive and below the next one to hand out. */
  predicate IdsBelow(rows: map<string, Row>, nextId: int)
  {
    forall u :: u in rows ==> 0 < rows[u].id < nextId
  }

  /** `get_user`: the row stored under `username`, if any, as a UserInDB. */
  function GetUser(rows: map<string, Row>, username: string): (r: Option<UserInDB>)
    ensures r.Some? <==> username in rows
    ensures r.Some? ==> && r.value.username == username && r.value.id == rows[username].id
                        && r.value.hashedPassword == rows[username].hashedPassword
                        && r.value.visits == rows[username].visits
  {
    if username in rows then
      Some(UserInDB(rows[username].id, username, rows[username].hashedPassword, rows[username].visits))
    else None
  }

  function Public(user: UserInDB): User
  {
    User(user.id, user.username, user.visits)
  }

  /** Python truthiness of an optional text field: absent and "" both count
      as not supplied. */
  function Supplied(field: Option<string>): Option<string>
  {
    if field.Some? && field.value != "" then field else None
  }

  /** `authenticate_user`: the row for `username`, if it exists and its hash
      verifies `password`. */
  function Authenticate(rows: map<string, Row>, username: string, password: string,
                        verify: (string, string) -> bool): (r: Option<UserInDB>)
    ensures r.Some? <==> username in rows && verify(password, rows[username].hashedPassword)
    ensures r.Some? ==> r == GetUser(rows, username)
  {
    match GetUser(rows, username)
    case None => None
    case Some(user) => if verify(password, user.hashedPassword) then Some(user) else None
  }

  /** The lifetime `create_access_token` uses: the given delta unless it is
      absent or zero (a zero timedelta is falsy), else 15 minutes. */
  function ExpiryMinutes(expiresDelta: Option<int>): (minutes: int)
    ensures expiresDelta.None? || expiresDelta == Some(0) ==> minutes == DefaultExpiryMinutes
    ensures expiresDelta.Some? && expiresDelta.value != 0 ==> minutes == expiresDelta.value
  {
    if expiresDelta.Some? && expiresDelta.value != 0 then expiresDelta.value else DefaultExpiryMinutes
  }

  /** `create_access_token`: a copy of `data` with "exp" set (what is then
      JWT-encoded). `data` itself is a value and is not changed. */
  function CreateAccessToken(data: map<string, Claim>, expiresDelta: Option<int>, now: int): (r: map<string, Claim>)
    ensures r.Keys == data.Keys + {"exp"}
    ensures forall k :: k in data && k != "exp" ==> r[k] == data[k]
    ensures r["exp"] == Expiry(now + ExpiryMinutes(expiresDelta))
  {
    data["exp" := Expiry(now + ExpiryMinutes(expiresDelta))]
  }

  /** `login_for_access_token`, the password grant of section 4.3 of RFC 6749:
      401 with the Bearer challenge on bad credentials; otherwise a bearer
      token whose subject is the user and whose lifetime is the configured
      number of minutes. */
  function LoginForAccessToken(rows: map<string, Row>, username: string, password: string,
                               verify: (string, string) -> bool, now: int, expireMinutes: int): (r: Result<Token>)
    ensures r.Err? <==> Authenticate(rows, username, password, verify).None?
    ensures r.Err? ==> r.failure == IncorrectLogin
    ensures r.Ok? ==> r.value.tokenType == "bearer"
    ensures r.Ok? ==> r.value.claims.Keys == {"sub", "exp"} && r.value.claims["sub"] == TextClaim(username)
    ensures r.Ok? ==> r.value.claims["exp"] == Expiry(now + ExpiryMinutes(Some(expireMinutes)))
  {
    match Authenticate(rows, username, password, verify)
    case None => Err(IncorrectLogin)
    case Some(user) =>
      Ok(Token(CreateAccessToken(map["sub" := TextClaim(user.username)], Some(expireMinutes), now), "bearer"))
  }

  /** The username a decoded payload names, if decoding succeeded and "sub"
      is present as text. */
  function Subject(payload: Option<map<string, Claim>>): Option<string>
  {
    match payload
    case None => None
    case Some(claims) => if "sub" in claims && claims["sub"].TextClaim? then Some(claims["sub"].text) else None
  }

  /** What `get_current_user` returns for a decoded payload: 401 with the
      Bearer challenge unless it names an existing user; that user as read
      BEFORE its visit is counted. */
  function CurrentUser(rows: map<string, Row>, payload: Option<map<string, Claim>>): (r: Result<UserInDB>)
    ensures r.Ok? <==> Subject(payload).Some? && Subject(payload).value in rows
    ensures r.Err? ==> r.failure == InvalidCredentials
    ensures r.Ok? ==> Some(r.value) == GetUser(rows, Subject(payload).value)
  {
    match Subject(payload)
    case None => Err(InvalidCredentials)
    case Some(name) =>
      match GetUser(rows, name)
      case None => Err(InvalidCredentials)
      case Some(user) => Ok(user)
  }

  /** `UPDATE users SET visits = visits + 1 WHERE id = %s`. */
  function Visited(rows: map<string, Row>, id: int): map<string, Row>
  {
    map u | u in rows :: if rows[u].id == id then rows[u].(visits := rows[u].visits + 1) else rows[u]
  }

  /** `DELETE FROM users WHERE id = %s`. */
  function Deleted(rows: map<string, Row>, id: int): map<string, Row>
  {
    map u | u in rows && rows[u].id != id :: rows[u]
  }

  /** The SET list of `UPDATE users SET ... WHERE id = %s` applied to one row
      (its username and its other columns). Only the listed columns change:
      the id and the visit count are never among them. */
  function SetColumns(username: string, row: Row, assignments: seq<Assignment>): (r: (string, Row))
    ensures r.1.id == row.id && r.1.visits == row.visits
    decreases |assignments|
  {
    if assignments == [] then (username, row)
    else match assignments[0]
      case SetUsername(name) => SetColumns(name, row, assignments[1..])
      case SetPassword(hash) => SetColumns(username, row.(hashedPassword := hash), assignments[1..])
  }

  /** The assignments `update_user` collects for a body whose fields are
      checked as supplied; `newHash` is the bcrypt hash of the new password. */
  function Assignments(body: UserUpdate, newHash: string): seq<Assignment>
  {
    (if Supplied(body.username).Some? then [SetUsername(body.username.value)] else [])
    + (if Supplied(body.password).Some? then [SetPassword(newHash)] else [])
  }

  /** The reply and the new table of PUT /users/me. */
  function UpdateUserSpec(rows: map<string, Row>, payload: Option<map<string, Claim>>,
                          body: UserUpdate, newHash: string): (Result<User>, map<string, Row>)
  {
    match CurrentUser(rows, payload)
    case Err(f) => (Err(f), rows)
    case Ok(current) =>
      var counted := Visited(rows, current.id);
      var name := Supplied(body.username);
      if name.Some? && name.value != current.username && name.value in counted then (Err(UsernameTaken), counted)
      else if Assignments(body, newHash) == [] then (Ok(Public(current)), counted)
      else
        var (newName, newRow) := SetColumns(current.username, counted[current.username], Assignments(body, newHash));
        (Ok(User(newRow.id, newName, newRow.visits)), (counted - {current.username})[newName := newRow])
  }

  /** The users table, changed in place by the endpoints. */
  class UserTable {
    var rows: map<string, Row>
    var nextId: int

    ghost predicate Valid()
      reads this
    {
      0 < nextId && UniqueIds(rows) && IdsBelow(rows, nextId)
    }

    constructor ()
      ensures Valid() && rows == map[] && nextId == 1
    {
      rows, nextId := map[], 1;
    }

    /** `increment_visit_count`. */
    method IncrementVisitCount(id: int)
      requires Valid()
      modifies this
      ensures Valid() && nextId == old(nextId)
      ensures rows == Visited(old(rows), id)
    {
      rows := Visited(rows, id);
    }

    /** `get_current_user`: authenticates the presented token and counts one
        visit for its user. */
    method GetCurrentUser(payload: Option<map<string, Claim>>) returns (r: Result<UserInDB>)
      requires Valid()
      modifies this
      ensures Valid() && nextId == old(nextId)
      ensures r == CurrentUser(old(rows), payload)
      ensures rows == if r.Ok? then Visited(old(rows), r.value.id) else old(rows)
    {
      var name := Subject(payload);
      if name.None? {
        return Err(InvalidCredentials);
      }
      var user := GetUser(rows, name.value);
      if user.None? {
        return Err(InvalidCredentials);
      }
      IncrementVisitCount(user.value.id);
      return Ok(user.value);
    }

    /** `register_user`: a taken name is refused with 400 and no change;
        otherwise one row is added with the next id, the hash and no visits. */
    method RegisterUser(username: string, hashedPassword: string) returns (r: Result<string>)
      requires Valid()
      modifies this
      ensures Valid()
      ensures username in old(rows) ==> r == Err(UsernameRegistered) && rows == old(rows) && nextId == old(nextId)
      ensures username !in old(rows) ==>
        && r == Ok("User registered successfully")
        && rows == old(rows)[username := Row(old(nextId), hashedPassword, 0)]
        && nextId == old(nextId) + 1
    {
      if GetUser(rows, username).Some? {
        return Err(UsernameRegistered);
      }
      rows := rows[username := Row(nextId, hashedPassword, 0)];
      nextId := nextId + 1;
      return Ok("User registered successfully");
    }

    /** `read_users_me`: the current user as read before its visit is counted. */
    method ReadUsersMe(payload: Option<map<string, Claim>>) returns (r: Result<User>)
      requires Valid()
      modifies this
      ensures Valid() && nextId == old(nextId)
      ensures CurrentUser(old(rows), payload).Err? ==> r == Err(InvalidCredentials) && rows == old(rows)
      ensures CurrentUser(old(rows), payload).Ok? ==>
        var current := CurrentUser(old(rows), payload).value;
        r == Ok(Public(current)) && rows == Visited(old(rows), current.id)
    {
      var current := GetCurrentUser(payload);
      if current.Err? {
        return Err(current.failure);
      }
      return Ok(Public(current.value));
    }

    /** `update_user`. */
    method UpdateUser(payload: Option<map<string, Claim>>, body: UserUpdate, newHash: string) returns (r: Result<User>)
      requires Valid()
      modifies this
      ensures Valid() && nextId == old(nextId)
      ensures (r, rows) == UpdateUserSpec(old(rows), payload, body, newHash)
    {
      var current := GetCurrentUser(payload);
      if current.Err? {
        return Err(current.failure);
      }
      var user := current.value;
      var updates: seq<Assignment> := [];
      var name := Supplied(body.username);
      if name.Some? {
        if name.value != user.username && GetUser(rows, name.value).Some? {
          return Err(UsernameTaken);
        }
        updates := updates + [SetUsername(name.value)];
      }
      if Supplied(body.password).Some? {
        updates := updates + [SetPassword(newHash)];
      }
      if updates == [] {
        return Ok(Public(user));
      }
      assert updates == Assignments(body, newHash);
      var (newName, newRow) := SetColumns(user.username, rows[user.username], updates);
      AssignmentsSetColumns(user.username, rows[user.username], body, newHash);
      MoveRowKeepsKeys(rows, user.username, newName, newRow, nextId);
      rows := (rows - {user.username})[newName := newRow];
      var updated := GetUser(rows, newName);
      return Ok(Public(updated.value));
    }

    /** `delete_user`: after the visit the dependency counts, the current
        user's row is deleted. */
    method DeleteUser(payload: Option<map<string, Claim>>) returns (r: Result<string>)
      requires Valid()
      modifies this
      ensures Valid() && nextId == old(nextId)
      ensures CurrentUser(old(rows), payload).Err? ==> r == Err(InvalidCredentials) && rows == old(rows)
      ensures CurrentUser(old(rows), payload).Ok? ==>
        && r == Ok("User deleted successfully")
        && rows == old(rows) - {CurrentUser(old(rows), payload).value.username}
    {
      var current := GetCurrentUser(payload);
      if current.Err? {
        return Err(current.failure);
      }
      DeleteRemovesOwnRow(old(rows), current.value.username);
      rows := Deleted(rows, current.value.id);
      return Ok("User deleted successfully");
    }
  }

  /** Counting a visit by id touches exactly the row with that id, adds one
      to it, and keeps the table's key invariants. */
  lemma VisitCountsOwnerOnly(rows: map<string, Row>, username: string)
    requires UniqueIds(rows) && username in rows
    ensures Visited(rows, rows[username].id) == rows[username := rows[username].(visits := rows[username].visits + 1)]
    ensures UniqueIds(Visited(rows, rows[username].id))
    ensures forall next :: IdsBelow(rows, next) ==> IdsBelow(Visited(rows, rows[username].id), next)
  {
    var id := rows[username].id;
    var bumped := rows[username := rows[username].(visits := rows[username].visits + 1)];
    forall u | u in rows
      ensures Visited(rows, id)[u] == bumped[u]
    {
      if u != username {
        assert rows[u].id != id;
      }
    }
  }

  /** Moving one row to a name that is its own or free, keeping its id,
      keeps the id invariants. */
  lemma MoveRowKeepsKeys(rows: map<string, Row>, owner: string, name: string, row: Row, nextId: int)
    requires UniqueIds(rows) && IdsBelow(rows, nextId) && owner in rows
    requires name == owner || name !in rows
    requires row.id == rows[owner].id
    ensures UniqueIds((rows - {owner})[name := row]) && IdsBelow((rows - {owner})[name := row], nextId)
  {
  }

  /** Deleting the current user's row after its visit was counted removes
      that row and nothing else. */
  lemma DeleteRemovesOwnRow(rows: map<string, Row>, username: string)
    requires UniqueIds(rows) && username in rows
    ensures Deleted(Visited(rows, rows[username].id), rows[username].id) == rows - {username}
  {
    VisitCountsOwnerOnly(rows, username);
  }

  /** The SET list built from a body renames the row to the supplied name (if
      any) and stores the new hash (if a password was supplied). */
  lemma {:induction false} AssignmentsSetColumns(username: string, row: Row, body: UserUpdate, newHash: string)
    ensures SetColumns(username, row, Assignments(body, newHash))
         == (if Supplied(body.username).Some? then body.username.value else username,
             if Supplied(body.password).Some? then row.(hashedPassword := newHash) else row)
  {
    var a := Assignments(body, newHash);
    var hashed := row.(hashedPassword := newHash);
    if Supplied(body.username).Some? && Supplied(body.password).Some? {
      var name := body.username.value;
      assert a == [SetUsername(name), SetPassword(newHash)];
      assert a[1..] == [SetPassword(newHash)] && a[1..][1..] == [];
      calc {
        SetColumns(username, row, a);
        SetColumns(name, row, a[1..]);
        SetColumns(name, hashed, a[1..][1..]);
      }
    } else if Supplied(body.username).Some? {
      assert a == [SetUsername(body.username.value)] && a[1..] == [];
    } else if Supplied(body.password).Some? {
      assert a == [SetPassword(newHash)] && a[1..] == [];
      assert SetColumns(username, row, a) == SetColumns(username, hashed, a[1..]);
    }
  }

  /** An issued token is accepted by `get_current_user` (given that the JWT
      decodes to the claims it encodes before it expires) and names the user
      who logged in. */
  lemma IssuedTokenIdentifiesUser(rows: map<string, Row>, username: string, password: string,
                                  verify: (string, string) -> bool, now: int, expireMinutes: int)
    requires LoginForAccessToken(rows, username, password, verify, now, expireMinutes).Ok?
    ensures var token := LoginForAccessToken(rows, username, password, verify, now, expireMinutes).value;
      CurrentUser(rows, Some(token.claims)) == Ok(GetUser(rows, username).value)
  {
  }

  /** A freshly registered user can log in with the password whose hash was
      stored, and is then seen with no visits yet. */
  lemma RegisteredUserCanLogIn(rows: map<string, Row>, username: string, password: string, hashedPassword: string,
                               id: int, verify: (string, string) -> bool, now: int, expireMinutes: int)
    requires username !in rows && verify(password, hashedPassword)
    ensures var table := rows[username := Row(id, hashedPassword, 0)];
      var token := LoginForAccessToken(table, username, password, verify, now, expireMinutes);
      && token.Ok?
      && CurrentUser(table, Some(token.value.claims)) == Ok(UserInDB(id, username, hashedPassword, 0))
  {
  }

  /** After its row is deleted, the same token gets 401 and the name no
      longer authenticates with any password. */
  lemma DeletedUserIsLockedOut(rows: map<string, Row>, payload: Option<map<string, Claim>>, password: string,
                               verify: (string, string) -> bool)
    requires CurrentUser(rows, payload).Ok?
    ensures var gone := rows - {CurrentUser(rows, payload).value.username};
      && CurrentUser(gone, payload) == Err(InvalidCredentials)
      && Authenticate(gone, CurrentUser(rows, payload).value.username, password, verify).None?
  {
  }

  /** Renaming to another user's name is refused with 400; only the visit the
      dependency counted remains. */
  lemma RenameToTakenNameRefused(rows: map<string, Row>, payload: Option<map<string, Claim>>,
                                 name: string, password: Option<string>, newHash: string)
    requires UniqueIds(rows)
    requires CurrentUser(rows, payload).Ok?
    requires name != "" && name != CurrentUser(rows, payload).value.username && name in rows
    ensures var current := CurrentUser(rows, payload).value;
      UpdateUserSpec(rows, payload, UserUpdate(Some(name), password), newHash)
        == (Err(UsernameTaken), rows[current.username := rows[current.username].(visits := rows[current.username].visits + 1)])
  {
    VisitCountsOwnerOnly(rows, CurrentUser(rows, payload).value.username);
  }

  /** A body with neither field supplied (such as the client's {visits: 1})
      writes nothing but the counted visit, and the reply carries the visit
      count read before that visit. */
  lemma EmptyUpdateOnlyCountsVisit(rows: map<string, Row>, payload: Option<map<string, Claim>>,
                                   body: UserUpdate, newHash: string)
    requires UniqueIds(rows)
    requires CurrentUser(rows, payload).Ok?
    requires Supplied(body.username).None? && Supplied(body.password).None?
    ensures var current := CurrentUser(rows, payload).value;
      UpdateUserSpec(rows, payload, body, newHash)
        == (Ok(User(current.id, current.username, rows[current.username].visits)),
            rows[current.username := rows[current.username].(visits := rows[current.username].visits + 1)])
  {
    VisitCountsOwnerOnly(rows, CurrentUser(rows, payload).value.username);
  }

  /** An update whose new name is free or the user's own, or that supplies
      no name, is accepted, and it rewrites only the current user's row:
      under the new name (or the old one), with the same id, the visit
      counted, and the new hash only if a password was supplied; the key
      invariants still hold. */
  lemma {:induction false} UpdateRewritesOwnRowOnly(rows: map<string, Row>, payload: Option<map<string, Claim>>,
                                                    body: UserUpdate, newHash: string, nextId: int)
    requires UniqueIds(rows) && IdsBelow(rows, nextId)
    requires CurrentUser(rows, payload).Ok?
    requires Supplied(body.username).None? || body.username.value == CurrentUser(rows, payload).value.username
             || body.username.value !in rows
    requires Supplied(body.username).Some? || Supplied(body.password).Some?
    ensures var current := CurrentUser(rows, payload).value;
      var row := rows[current.username];
      var newName := if Supplied(body.username).Some? then body.username.value else current.username;
      var newHashed := if Supplied(body.password).Some? then newHash else row.hashedPassword;
      && UpdateUserSpec(rows, payload, body, newHash).1
           == (rows - {current.username})[newName := Row(row.id, newHashed, row.visits + 1)]
      && UpdateUserSpec(rows, payload, body, newHash).0 == Ok(User(row.id, newName, row.visits + 1))
      && UniqueIds(UpdateUserSpec(rows, payload, body, newHash).1)
      && IdsBelow(UpdateUserSpec(rows, payload, body, newHash).1, nextId)
  {
    var current := CurrentUser(rows, payload).value;
    VisitCountsOwnerOnly(rows, current.username);
    var counted := Visited(rows, current.id);
    AssignmentsSetColumns(current.username, counted[current.username], body, newHash);
  }
}
