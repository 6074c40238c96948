/** The two route guards: `authenticate`, which reads the `jwt` cookie and
    loads the user it names into `req.user`, and `authorizeAdmin`, which lets
    only an administrator through. `jwt.verify` is an input (`verify` gives the
    decoded id, or None when it throws), and so is the id cast of the lookup
    (`castable`, false when `findById` throws). */
module AuthMiddleware {
  import opened Common
  import opened UserModel
  import opened ErrorMiddleware

  /** `req.user`: the document selected without its password. */
  datatype RequestUser = RequestUser(
    id: string, firstName: string, lastName: string, email: string,
    isAdmin: bool, profileImage: string, photo: Option<string>)

  function WithoutPassword(u: User): (r: RequestUser)
    ensures r.id == u.id && r.email == u.email && r.isAdmin == u.isAdmin
  {
    RequestUser(u.id, u.firstName, u.lastName, u.email, u.isAdmin, u.profileImage, u.photo)
  }

  /** A middleware calls `next` with `req.user` as it left it, or ends the
      request. */
  datatype Gate = Next(user: Option<RequestUser>) | Stop(outcome: Outcome<string>)

  /** `User.findById(id).select("-password")`: null when nobody has the id. */
  function LookupUser(users: seq<User>, id: string): (r: Option<RequestUser>)
    ensures r.Some? <==> exists k :: 0 <= k < |users| && users[k].id == id
    ensures r.Some? ==> r.value.id == id && r.value == WithoutPassword(users[FindById(users, id).value])
  {
    match FindById(users, id)
    case None => None
    case Some(i) => Some(WithoutPassword(users[i]))
  }

  method Authenticate(cookie: Option<string>, verify: string -> Option<string>, castable: string -> bool,
                      users: seq<User>)
    returns (gate: Gate)
    ensures !TruthyStr(cookie) ==> gate == Stop(Thrown(401, "Not authorized , expired token"))
    ensures TruthyStr(cookie) && (verify(cookie.value).None? || !castable(verify(cookie.value).value)) ==>
      gate == Stop(Thrown(401, "Not authorized , invalid token"))
    ensures gate.Next? <==>
      TruthyStr(cookie) && verify(cookie.value).Some? && castable(verify(cookie.value).value)
    ensures gate.Next? ==> gate.user == LookupUser(users, verify(cookie.value).value)
  {
    var token := cookie;
    if TruthyStr(token) {
      var decoded := verify(token.value);
      if decoded.None? || !castable(decoded.value) {
        return Stop(Thrown(401, "Not authorized , invalid token"));
      }
      var user := LookupUser(users, decoded.value);
      gate := Next(user);
    } else {
      gate := Stop(Thrown(401, "Not authorized , expired token"));
    }
  }

  /** `req.user && req.user.isAdmin`; a refusal is a 401 reply, not a 403. */
  function AuthorizeAdmin(user: Option<RequestUser>): (r: Gate)
    ensures r.Next? <==> user.Some? && user.value.isAdmin
    ensures r.Next? ==> r.user == user
    ensures r.Stop? ==> r.outcome == Reply(401, "Admin authorization required")
  {
    if user.Some? && user.value.isAdmin then Next(user)
    else Stop(Reply(401, "Admin authorization required"))
  }

  /** An admin route, `authenticate` then `authorizeAdmin`: the handler runs
      exactly when the cookie is present and verifies, and it names a stored
      administrator. A valid token whose user is gone passes `authenticate`
      but not this gate. */
  method AdminRoute(cookie: Option<string>, verify: string -> Option<string>, castable: string -> bool,
                    users: seq<User>)
    returns (gate: Gate)
    ensures gate.Next? <==>
      && TruthyStr(cookie) && verify(cookie.value).Some? && castable(verify(cookie.value).value)
      && FindById(users, verify(cookie.value).value).Some?
      && users[FindById(users, verify(cookie.value).value).value].isAdmin
    ensures gate.Stop? && gate.outcome.Reply? ==> gate.outcome.status == 401
    ensures gate.Stop? && gate.outcome.Thrown? ==> gate.outcome.statusCode == 401
  {
    gate := Authenticate(cookie, verify, castable, users);
    if gate.Next? {
      gate := AuthorizeAdmin(gate.user);
    }
  }
}
