/**
 * `/api/auth/register` and `/api/auth/login` over the `users` table.
 * Password hashing (`bcrypt.hash`/`compare`) and token signing (`jwt.sign`)
 * are oracles; whether a query throws is a parameter.
 */
module AuthRoute {
  import opened JsValues
  import opened Http
  import opened AuthMiddleware

  /** One row of `users (id, username, email, password_hash)`. */
  datatype UserRow = UserRow(id: int, username: string, email: string, passwordHash: string)

  /** The body of a successful login: the signed token and the public user fields. */
  datatype Session = Session(token: string, user: UserClaim)

  const InvalidCredentials: string := "Invalid email or password."

  /** Some user already has this username or this email. */
  predicate Taken(users: seq<UserRow>, username: string, email: string)
  {
    exists i :: 0 <= i < |users| && (users[i].username == username || users[i].email == email)
  }

  /** No two users share an id, a username or an email. */
  predicate UniqueUsers(users: seq<UserRow>)
  {
    forall i, j :: 0 <= i < j < |users| ==>
      users[i].id != users[j].id && users[i].username != users[j].username && users[i].email != users[j].email
  }

  /** `SELECT ... FROM users WHERE email = ?` followed by `users[0]`. */
  function FirstWithEmail(users: seq<UserRow>, email: string): (r: Option<UserRow>)
    ensures r.None? <==> forall i :: 0 <= i < |users| ==> users[i].email != email
    ensures r.Some? ==> r.value in users && r.value.email == email
    ensures r.Some? ==> exists i :: 0 <= i < |users| && users[i] == r.value
                                 && forall k :: 0 <= k < i ==> users[k].email != email
  {
    if users == [] then None
    else if users[0].email == email then Some(users[0])
    else
      var r := FirstWithEmail(users[1..], email);
      assert forall k :: 1 <= k < |users| ==> users[k] == users[1..][k - 1];
      r
  }

  /** The public part of a user row, as signed into the token and returned. */
  function ClaimOf(u: UserRow): (c: UserClaim)
    ensures c.id == u.id && c.username == u.username && c.email == u.email
  {
    UserClaim(u.id, u.username, u.email)
  }

  /**
   * POST /login. `matches(password, hash)` is `bcrypt.compare`,
   * `secret` the configured JWT secret and `sign` `jwt.sign` with it.
   */
  function Login(users: seq<UserRow>, email: Option<string>, password: Option<string>, dbFails: bool,
                 matches: (string, string) -> bool, secret: Option<string>, sign: (UserClaim, string) -> string)
    : (r: Response<Session>)
    ensures !TruthyStr(email) || !TruthyStr(password) ==> r == Error(400, "Email and password are required.")
    ensures TruthyStr(email) && TruthyStr(password) && dbFails ==> r == Error(500, "Internal server error during login.")
    ensures TruthyStr(email) && TruthyStr(password) && !dbFails ==>
              var u := FirstWithEmail(users, email.value);
              && (u.None? ==> r == Error(401, InvalidCredentials))
              && (u.Some? && !matches(password.value, u.value.passwordHash) ==> r == Error(401, InvalidCredentials))
              && (u.Some? && matches(password.value, u.value.passwordHash) && !TruthyStr(secret) ==>
                    r == Error(500, "Internal server error: JWT configuration missing."))
    ensures r.Json? <==> TruthyStr(email) && TruthyStr(password) && !dbFails && TruthyStr(secret)
                         && FirstWithEmail(users, email.value).Some?
                         && matches(password.value, FirstWithEmail(users, email.value).value.passwordHash)
    ensures r.Json? ==> r.status == 200 && r.body.user.email == email.value && r.body.user in ClaimsOf(users)
                        && r.body.token == sign(r.body.user, secret.value)
  {
    if !TruthyStr(email) || !TruthyStr(password) then Error(400, "Email and password are required.")
    else if dbFails then Error(500, "Internal server error during login.")
    else
      match FirstWithEmail(users, email.value)
      case None => Error(401, InvalidCredentials)
      case Some(u) =>
        if !matches(password.value, u.passwordHash) then Error(401, InvalidCredentials)
        else if !TruthyStr(secret) then Error(500, "Internal server error: JWT configuration missing.")
        else
          var claim := ClaimOf(u);
          Json(200, Session(sign(claim, secret.value), claim))
  }

  /** The public parts of all users. */
  function ClaimsOf(users: seq<UserRow>): (cs: set<UserClaim>)
    ensures forall u :: u in users ==> ClaimOf(u) in cs
    ensures forall c :: c in cs ==> exists u :: u in users && c == ClaimOf(u)
  {
    set u | u in users :: ClaimOf(u)
  }

  /** The `users` table and its auto-increment counter. */
  class UsersTable {
    var users: seq<UserRow>
    var nextId: int

    constructor ()
      ensures users == [] && nextId == 1
    {
      users := [];
      nextId := 1;
    }

    /** Ids, usernames and emails are unique, and every id is below the counter. */
    predicate Valid()
      reads this
    {
      UniqueUsers(users) && forall i :: 0 <= i < |users| ==> users[i].id < nextId
    }

    /**
     * POST /register. `hash` is `bcrypt.hash(password, 10)`; on success the
     * body is the new user's id.
     */
    method Register(username: Option<string>, email: Option<string>, password: Option<string>,
                    dbFails: bool, hash: string -> string)
      returns (resp: Response<int>)
      modifies this
      ensures !(TruthyStr(username) && TruthyStr(email) && TruthyStr(password)) ==>
                resp == Error(400, "Username, email, and password are required.") && unchanged(this)
      ensures TruthyStr(username) && TruthyStr(email) && TruthyStr(password) && dbFails ==>
                resp == Error(500, "Internal server error during registration.") && unchanged(this)
      ensures TruthyStr(username) && TruthyStr(email) && TruthyStr(password) && !dbFails
              && Taken(old(users), username.value, email.value) ==>
                resp == Error(409, "Username or email already exists.") && unchanged(this)
      ensures TruthyStr(username) && TruthyStr(email) && TruthyStr(password) && !dbFails
              && !Taken(old(users), username.value, email.value) ==>
                resp == Json(201, old(nextId)) && nextId == old(nextId) + 1
                && users == old(users) + [UserRow(old(nextId), username.value, email.value, hash(password.value))]
      ensures old(Valid()) ==> Valid()
    {
      if !(TruthyStr(username) && TruthyStr(email) && TruthyStr(password)) {
        return Error(400, "Username, email, and password are required.");
      }
      if dbFails {
        return Error(500, "Internal server error during registration.");
      }
      var existing := exists i :: 0 <= i < |users| && (users[i].username == username.value || users[i].email == email.value);
      if existing {
        return Error(409, "Username or email already exists.");
      }
      var row := UserRow(nextId, username.value, email.value, hash(password.value));
      users := users + [row];
      resp := Json(201, nextId);
      nextId := nextId + 1;
    }
  }

  /** A user who has just registered can log in with the same password. */
  lemma LoginAfterRegister(users: seq<UserRow>, row: UserRow, password: string,
                           matches: (string, string) -> bool, secret: string, sign: (UserClaim, string) -> string)
    requires !Taken(users, row.username, row.email)
    requires row.email != "" && password != "" && secret != ""
    requires matches(password, row.passwordHash)
    ensures Login(users + [row], Some(row.email), Some(password), false, matches, Some(secret), sign)
            == Json(200, Session(sign(ClaimOf(row), secret), ClaimOf(row)))
  {
    var all := users + [row];
    assert FirstWithEmail(all, row.email) == Some(row) by {
      var r := FirstWithEmail(all, row.email);
      assert all[|users|] == row;
      var i :| 0 <= i < |all| && all[i] == r.value && forall k :: 0 <= k < i ==> all[k].email != row.email;
      assert forall k :: 0 <= k < |users| ==> all[k] == users[k];
    }
  }

  /** An unknown email and a wrong password are answered identically. */
  lemma LoginHidesWhichCheckFailed(users: seq<UserRow>, known: string, unknown: string, password: string,
                                  matches: (string, string) -> bool, secret: Option<string>,
                                  sign: (UserClaim, string) -> string)
    requires known != "" && unknown != "" && password != ""
    requires forall u :: u in users ==> u.email != unknown
    requires exists u :: u in users && u.email == known && !matches(password, u.passwordHash)
    requires UniqueUsers(users)
    ensures Login(users, Some(unknown), Some(password), false, matches, secret, sign)
            == Login(users, Some(known), Some(password), false, matches, secret, sign)
            == Error(401, InvalidCredentials)
  {
    var u :| u in users && u.email == known && !matches(password, u.passwordHash);
    FoundByEmail(users, u);
    assert FirstWithEmail(users, unknown).None?;
  }

  /** With unique emails, looking a user's email up finds that user. */
  lemma FoundByEmail(users: seq<UserRow>, u: UserRow)
    requires UniqueUsers(users)
    requires u in users
    ensures FirstWithEmail(users, u.email) == Some(u)
  {
    var r := FirstWithEmail(users, u.email);
    var i :| 0 <= i < |users| && users[i] == r.value && forall k :: 0 <= k < i ==> users[k].email != u.email;
    var j :| 0 <= j < |users| && users[j] == u;
    assert i == j;
  }
}
