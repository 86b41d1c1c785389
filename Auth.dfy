/** The `auth` middleware: it takes the bearer token from the `Authorization`
    header, verifies it, loads the user it names and attaches
    `{ id, email, role }` and the token to the request before calling `next`.

    The token verifier (`jwt.verify` with the server secret) and the user store
    are parameters: a function from token to `Verified`, and a map from user id
    to the stored account. */
module Auth {
  import opened JsValues
  import opened Sections
  import opened UserModel
  import Text

  /** The part of a stored user that `auth` reads. */
  datatype Account = Account(email: string, role: Role)

  /** What `jwt.verify` does with a token: returns a payload naming a user, or throws. */
  datatype Verified = Payload(userId: Id) | Throws

  /** A plain JavaScript object with string-valued properties, such as `req.user`. */
  type JsObject = map<string, string>

  /** What `auth` leaves behind: its gate decision, and on success the `req.user`
      object and `req.token` it attaches. */
  datatype AuthResult = Accepted(user: JsObject, token: string) | Rejected(status: int, message: string)

  const NoToken := "No authentication token, access denied"
  const InvalidToken := "Token is not valid"
  const AuthFailed := "Authentication failed"

  function RoleName(r: Role): string
  {
    match r
    case Admin => "admin"
    case User => "user"
  }

  /** `req.header('Authorization')?.replace('Bearer ', '')`: a string replace of the
      first occurrence, not a prefix check. */
  function ExtractToken(header: Option<string>): (r: Option<string>)
    ensures header.None? <==> r.None?
    ensures forall t :: header == Some("Bearer " + t) ==> r == Some(t)
    ensures header.Some? && !Text.Includes(header.value, "Bearer ") ==> r == header
  {
    forall t | header == Some("Bearer " + t) ensures Text.ReplaceFirst("Bearer " + t, "Bearer ", "") == t {
      Text.ReplaceFirstPrefix("Bearer ", t);
    }
    assert header.Some? && !Text.Includes(header.value, "Bearer ") ==>
        Text.ReplaceFirst(header.value, "Bearer ", "") == header.value by {
      if header.Some? && !Text.Includes(header.value, "Bearer ") {
        Text.IncludesIff(header.value, "Bearer ");
        Text.ReplaceFirstAbsent(header.value, "Bearer ", "");
      }
    }
    match header
    case None => None
    case Some(h) => Some(Text.ReplaceFirst(h, "Bearer ", ""))
  }

  /** The `req.user` object `auth` attaches: exactly the keys `id`, `email` and `role`. */
  function AttachedUser(id: Id, a: Account): (u: JsObject)
    ensures u.Keys == {"id", "email", "role"}
    ensures u["id"] == id && u["email"] == a.email && u["role"] == RoleName(a.role)
  {
    map["id" := id, "email" := a.email, "role" := RoleName(a.role)]
  }

  /** The whole decision of `auth`. Every rejection is a 401. */
  function Authenticate(header: Option<string>, verify: string -> Verified, users: map<Id, Account>): (r: AuthResult)
    ensures r.Rejected? ==> r.status == 401
    ensures (ExtractToken(header).None? || ExtractToken(header) == Some("")) <==> r == Rejected(401, NoToken)
    ensures ExtractToken(header).Some? && ExtractToken(header).value != "" ==>
      var t := ExtractToken(header).value;
      match verify(t)
      case Throws => r == Rejected(401, AuthFailed)
      case Payload(id) =>
        if id in users then r == Accepted(AttachedUser(id, users[id]), t) else r == Rejected(401, InvalidToken)
    ensures r.Accepted? ==>
      (r.token != "" && Some(r.token) == ExtractToken(header)
       && verify(r.token).Payload? && r.user["id"] == verify(r.token).userId && r.user["id"] in users)
  {
    var token := ExtractToken(header);
    if token.None? || token.value == "" then Rejected(401, NoToken)
    else match verify(token.value)
      case Throws => Rejected(401, AuthFailed)
      case Payload(id) =>
        if id !in users then Rejected(401, InvalidToken)
        else Accepted(AttachedUser(id, users[id]), token.value)
  }

  /** A header that is exactly `"Bearer "` leaves an empty token and is refused
      before the verifier is asked. */
  lemma EmptyBearerRefused(verify: string -> Verified, users: map<Id, Account>)
    ensures Authenticate(Some("Bearer "), verify, users) == Rejected(401, NoToken)
  {
    assert "Bearer " == "Bearer " + "";
    assert ExtractToken(Some("Bearer " + "")) == Some("");
  }

  /** A token without the `Bearer ` scheme is passed to the verifier unchanged. */
  lemma BareTokenAccepted(token: string, verify: string -> Verified, users: map<Id, Account>)
    requires token != "" && !Text.Includes(token, "Bearer ")
    requires verify(token).Payload? && verify(token).userId in users
    ensures Authenticate(Some(token), verify, users).Accepted?
    ensures Authenticate(Some(token), verify, users).token == token
  {
  }

  /** The request as the middleware chain sees it. */
  class Request {
    /** `req.user`, absent until `auth` sets it. */
    var user: Option<JsObject>
    /** `req.token` */
    var token: Option<string>
    /** How many times the middleware called `next()`. */
    var nextCalls: nat
    /** The response written, if any: status and message. */
    var response: Option<(int, string)>

    constructor ()
      ensures user.None? && token.None? && nextCalls == 0 && response.None?
    {
      user, token, nextCalls, response := None, None, 0, None;
    }

    /** Runs `auth` on this request: either `req.user` and `req.token` are set and
        `next` is called once, or a 401 is written and `next` is not called. */
    method RunAuth(header: Option<string>, verify: string -> Verified, users: map<Id, Account>)
      requires nextCalls == 0 && response.None?
      modifies this
      ensures match Authenticate(header, verify, users)
        case Accepted(u, t) =>
          user == Some(u) && token == Some(t) && nextCalls == 1 && response.None?
        case Rejected(status, message) =>
          user == old(user) && token == old(token) && nextCalls == 0 && response == Some((status, message))
    {
      var r := Authenticate(header, verify, users);
      match r {
        case Accepted(u, t) =>
          user := Some(u);
          token := Some(t);
          nextCalls := nextCalls + 1;
        case Rejected(status, message) =>
          response := Some((status, message));
      }
    }
  }
}
