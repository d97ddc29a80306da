/**
 * `authMiddleware`: accepts a request whose `Authorization` header is
 * `Bearer <token>` with a token the JWT library verifies, sets `req.user`
 * from the token's payload and passes the request on; otherwise answers 401.
 * `jwt.verify` with the server's secret is the oracle `verify`, `None` when
 * it throws.
 */
module AuthMiddleware {
  import opened JsValues
  import opened Text

  /** The `user` object the login route signs into every token. */
  datatype UserClaim = UserClaim(id: int, username: string, email: string)

  /** A verified payload; `user` is absent when the payload has none. */
  datatype Decoded = Decoded(user: Option<UserClaim>)

  /** How the header reads. */
  datatype Bearer = Missing | Malformed | Bearer(token: string)

  /** The middleware's verdict: pass on with `req.user`, or answer 401 with a message. */
  datatype AuthDecision = Next(user: Option<UserClaim>) | Deny(status: nat, message: string)

  /** `!authHeader`, then `authHeader.split(" ")` must be exactly `["Bearer", token]`. */
  function ParseHeader(header: Option<string>): (b: Bearer)
    ensures b.Missing? <==> !TruthyStr(header)
    ensures b.Bearer? ==> ' ' !in b.token
  {
    if !TruthyStr(header) then Missing
    else
      var parts := Split(header.value, ' ');
      if |parts| != 2 || parts[0] != "Bearer" then Malformed else Bearer(parts[1])
  }

  /** A header is accepted as carrying `t` exactly when it is "Bearer " followed by a space-free `t`. */
  lemma BearerFormat(h: string, t: string)
    requires h != ""
    ensures ParseHeader(Some(h)) == Bearer(t) <==> h == "Bearer " + t && ' ' !in t
  {
    if ParseHeader(Some(h)) == Bearer(t) {
      JoinSplit(h, ' ');
      assert Split(h, ' ') == ["Bearer", t];
    }
    if h == "Bearer " + t && ' ' !in t {
      SplitJoin(["Bearer", t], ' ');
      assert Join(["Bearer", t], ' ') == h;
    }
  }

  /** The verdict for one request. */
  function Decide(header: Option<string>, verify: string -> Option<Decoded>): (d: AuthDecision)
    ensures d.Deny? ==> d.status == 401
    ensures !TruthyStr(header) ==> d == Deny(401, "No token, authorization denied")
    ensures ParseHeader(header).Malformed? ==> d == Deny(401, "Token format is invalid")
    ensures ParseHeader(header).Bearer? && verify(ParseHeader(header).token).None? ==> d == Deny(401, "Token is not valid")
    ensures d.Next? <==> ParseHeader(header).Bearer? && verify(ParseHeader(header).token).Some?
    ensures d.Next? ==> d.user == verify(ParseHeader(header).token).value.user
  {
    match ParseHeader(header)
    case Missing => Deny(401, "No token, authorization denied")
    case Malformed => Deny(401, "Token format is invalid")
    case Bearer(token) =>
      match verify(token)
      case None => Deny(401, "Token is not valid")
      case Some(decoded) => Next(decoded.user)
  }

  /** The Express request and response as far as the middleware touches them. */
  class Exchange {
    var user: Option<UserClaim>
    var nextCalls: nat
    var replied: Option<(nat, string)>

    constructor ()
      ensures user == None && nextCalls == 0 && replied == None
    {
      user := None;
      nextCalls := 0;
      replied := None;
    }

    /** Runs the middleware: either `req.user = decoded.user; next()` or one 401 reply. */
    method Authenticate(header: Option<string>, verify: string -> Option<Decoded>)
      modifies this
      ensures Decide(header, verify).Next? ==>
                user == Decide(header, verify).user && nextCalls == old(nextCalls) + 1 && replied == old(replied)
      ensures Decide(header, verify).Deny? ==>
                user == old(user) && nextCalls == old(nextCalls)
                && replied == Some((Decide(header, verify).status, Decide(header, verify).message))
    {
      if !TruthyStr(header) {
        replied := Some((401, "No token, authorization denied"));
        return;
      }
      var parts := Split(header.value, ' ');
      if |parts| != 2 || parts[0] != "Bearer" {
        replied := Some((401, "Token format is invalid"));
        return;
      }
      var token := parts[1];
      var decoded := verify(token);
      if decoded.None? {
        replied := Some((401, "Token is not valid"));
        return;
      }
      user := decoded.value.user;
      nextCalls := nextCalls + 1;
    }
  }
}
