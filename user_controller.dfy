/** The account handlers: registration, login, the forgot/reset password
    flow and the profile update. The store is the list of user documents in
    their natural order, so that `findOne` is the first match; a handler takes
    it and returns the store after its saves. The random reset token, the
    salts, the clock and the outcome of the mailer and of the upload are
    inputs. */
module UserController {
  import opened Common
  import opened UserModel
  import opened ErrorMiddleware

  /** The user fields a reply carries; there is no password among them. */
  datatype UserView = UserView(
    id: string, firstName: string, lastName: string, email: string,
    isAdmin: Option<bool>, photo: Option<string>)

  datatype UserBody = Profile(view: UserView) | Message(message: string)

  /** The `jwt` cookie `generateToken` signs for a user id. */
  datatype Cookie = Session(userId: string)

  /** The reset mail: its recipient and the raw token its link carries. */
  datatype ResetMail = ResetMail(to: string, token: string)

  /** Ten minutes, in milliseconds. */
  const ResetWindow := 10 * 60 * 1000

  /** The reply of registration and login: `photo` is the profile image. */
  function LoginView(u: User): UserView
  {
    UserView(u.id, u.firstName, u.lastName, u.email, Some(u.isAdmin), Some(u.profileImage))
  }

  /** The reply of the profile update: `photo`, and no `isAdmin`. */
  function UpdateView(u: User): UserView
  {
    UserView(u.id, u.firstName, u.lastName, u.email, None, u.photo)
  }

  /** Every stored password is a bcrypt hash. */
  predicate PasswordsHashed(users: seq<User>)
  {
    forall k :: 0 <= k < |users| ==> users[k].password.Bcrypt?
  }

  /** No document carries a `resetPasswordExpires` value. */
  predicate ExpiresNeverSet(users: seq<User>)
  {
    forall k :: 0 <= k < |users| ==> users[k].resetPasswordExpires.None?
  }

  // ---------------------------------------------------------------- register

  /** `req.body` of a registration; a missing or invalid field makes `create`
      fail, which `createError` stands for. */
  datatype RegisterBody = RegisterBody(
    firstName: string, lastName: string, email: string, password: string,
    profileImage: Option<string>, isAdmin: Option<bool>)

  method RegisterUser(body: RegisterBody, users: seq<User>, newId: string, salt: int, createError: Option<string>)
    returns (out: Outcome<UserBody>, users': seq<User>, cookie: Option<Cookie>)
    ensures FindByEmail(users, body.email).Some? ==>
      out == Thrown(400, "User already exists") && users' == users && cookie.None?
    ensures FindByEmail(users, body.email).None? && createError.Some? ==>
      out == Thrown(200, createError.value) && users' == users && cookie.None?
    ensures FindByEmail(users, body.email).None? && createError.None? ==>
      && |users'| == |users| + 1 && users'[..|users|] == users
      && var u := users'[|users|];
      && u.id == newId && u.firstName == body.firstName && u.lastName == body.lastName && u.email == body.email
      && (u.isAdmin <==> body.isAdmin == Some(true))
      && u.profileImage == (if body.profileImage.Some? then body.profileImage.value else DefaultProfileImage)
      && u.photo.None? && u.resetPasswordToken.None? && u.resetPasswordExpire.None? && u.resetPasswordExpires.None?
      && MatchPassword(u, body.password)
      && (forall t :: t != body.password ==> !MatchPassword(u, t))
      && out == Reply(201, Profile(LoginView(u))) && cookie == Some(Session(newId))
    ensures PasswordsHashed(users) ==> PasswordsHashed(users')
    ensures ExpiresNeverSet(users) ==> ExpiresNeverSet(users')
  {
    if FindByEmail(users, body.email).Some? {
      return Thrown(400, "User already exists"), users, None;
    }
    if createError.Some? {
      return Thrown(200, createError.value), users, None;
    }
    var doc := User(newId, body.firstName, body.lastName, body.email, Plain(body.password),
                    if body.isAdmin.Some? then body.isAdmin.value else false,
                    if body.profileImage.Some? then body.profileImage.value else DefaultProfileImage,
                    None, None, None, None);
    var user := PreSave(None, doc, salt);
    users' := users + [user];
    cookie := Some(Session(user.id));
    out := Reply(201, Profile(LoginView(user)));
  }

  // ------------------------------------------------------------------- login

  method LoginUser(email: string, password: string, users: seq<User>)
    returns (out: Outcome<UserBody>, cookie: Option<Cookie>)
    ensures out.Reply? <==> FindByEmail(users, email).Some? && MatchPassword(users[FindByEmail(users, email).value], password)
    ensures out.Reply? ==>
      var u := users[FindByEmail(users, email).value];
      out == Reply(200, Profile(LoginView(u))) && cookie == Some(Session(u.id))
    ensures out.Thrown? ==> out == Thrown(401, "Invalid email or password") && cookie.None?
  {
    var found := FindByEmail(users, email);
    if found.Some? && MatchPassword(users[found.value], password) {
      var user := users[found.value];
      cookie := Some(Session(user.id));
      out := Reply(200, Profile(LoginView(user)));
    } else {
      cookie := None;
      out := Thrown(401, "Invalid email or password");
    }
  }

  // ---------------------------------------------------------- forgot / reset

  /** The reset request: the document gets the digest of the fresh token and
      an expiry ten minutes ahead, written under `resetPasswordExpire`, and is
      saved before the mail goes out; a mail that fails clears both again. */
  method ForgotPassword(email: string, users: seq<User>, resetToken: string, now: int, salt: int, mailFails: bool)
    returns (out: Outcome<UserBody>, users': seq<User>, mails: seq<ResetMail>)
    ensures FindByEmail(users, email).None? ==>
      out == Thrown(404, "User not found") && users' == users && mails == []
    ensures FindByEmail(users, email).Some? && !mailFails ==>
      var i := FindByEmail(users, email).value;
      && users' == users[i := users[i].(resetPasswordToken := Some(Sha256Hex(resetToken)),
                                        resetPasswordExpire := Some(now + ResetWindow))]
      && mails == [ResetMail(users[i].email, resetToken)]
      && out == Reply(200, Message("Email sent"))
    ensures FindByEmail(users, email).Some? && mailFails ==>
      var i := FindByEmail(users, email).value;
      && users' == users[i := users[i].(resetPasswordToken := None, resetPasswordExpire := None)]
      && mails == []
      && out == Thrown(500, "Email could not be sent")
    ensures PasswordsHashed(users) ==> PasswordsHashed(users')
    ensures ExpiresNeverSet(users) ==> ExpiresNeverSet(users')
  {
    var found := FindByEmail(users, email);
    if found.None? {
      return Thrown(404, "User not found"), users, [];
    }
    var i := found.value;
    var user := users[i];
    user := user.(resetPasswordToken := Some(Sha256Hex(resetToken)));
    user := user.(resetPasswordExpire := Some(now + ResetWindow));
    users' := users[i := PreSave(Some(users[i]), user, salt)];
    if !mailFails {
      mails := [ResetMail(user.email, resetToken)];
      out := Reply(200, Message("Email sent"));
    } else {
      var saved := users'[i];
      user := user.(resetPasswordToken := None);
      user := user.(resetPasswordExpire := None);
      users' := users'[i := PreSave(Some(saved), user, salt)];
      mails := [];
      out := Thrown(500, "Email could not be sent");
    }
  }

  /** The lookup of the reset handler as written: the digest, and
      `resetPasswordExpires` greater than now (a missing field never is). */
  predicate ResetLookup(u: User, digest: Digest, now: int)
  {
    u.resetPasswordToken == Some(digest) && u.resetPasswordExpires.Some? && u.resetPasswordExpires.value > now
  }

  function FindResetUser(users: seq<User>, digest: Digest, now: int): (r: Option<nat>)
    ensures r.None? <==> forall k :: 0 <= k < |users| ==> !ResetLookup(users[k], digest, now)
    ensures r.Some? ==> r.value < |users| && ResetLookup(users[r.value], digest, now)
    ensures r.Some? ==> forall k :: 0 <= k < r.value ==> !ResetLookup(users[k], digest, now)
  {
    FirstIndex(users, (u: User) => ResetLookup(u, digest, now))
  }

  /** `resetPassword`, as written. On a hit the new text goes through the
      hook once, and the token and `resetPasswordExpires` are cleared. Since
      no handler ever writes `resetPasswordExpires`, a store that lacks it
      answers every reset with 400. */
  method ResetPassword(token: string, password: string, users: seq<User>, now: int, salt: int)
    returns (out: Outcome<UserBody>, users': seq<User>)
    ensures FindResetUser(users, Sha256Hex(token), now).None? ==>
      out == Reply(400, Message("Invalid or expired token")) && users' == users
    ensures FindResetUser(users, Sha256Hex(token), now).Some? ==>
      var i := FindResetUser(users, Sha256Hex(token), now).value;
      && out == Reply(200, Message("Password reset successfully"))
      && |users'| == |users| && (forall k :: 0 <= k < |users| && k != i ==> users'[k] == users[k])
      && (users[i].password.Bcrypt? ==>
            users'[i] == users[i].(password := Bcrypt(Plain(password), salt),
                                   resetPasswordToken := None, resetPasswordExpires := None))
    ensures ExpiresNeverSet(users) ==> out == Reply(400, Message("Invalid or expired token")) && users' == users
    ensures PasswordsHashed(users) ==> PasswordsHashed(users')
    ensures ExpiresNeverSet(users) ==> ExpiresNeverSet(users')
  {
    var hashedToken := Sha256Hex(token);
    var found := FindResetUser(users, hashedToken, now);
    if found.None? {
      return Reply(400, Message("Invalid or expired token")), users;
    }
    var i := found.value;
    var user := users[i];
    user := user.(password := Plain(password));
    user := user.(resetPasswordToken := None);
    user := user.(resetPasswordExpires := None);
    users' := users[i := PreSave(Some(users[i]), user, salt)];
    out := Reply(200, Message("Password reset successfully"));
  }

  /** The lookup as intended: the expiry under the name `forgotPassword`
      writes it. */
  predicate IntendedResetLookup(u: User, digest: Digest, now: int)
  {
    u.resetPasswordToken == Some(digest) && u.resetPasswordExpire.Some? && u.resetPasswordExpire.value > now
  }

  function FindIntendedResetUser(users: seq<User>, digest: Digest, now: int): (r: Option<nat>)
    ensures r.None? <==> forall k :: 0 <= k < |users| ==> !IntendedResetLookup(users[k], digest, now)
    ensures r.Some? ==> r.value < |users| && IntendedResetLookup(users[r.value], digest, now)
    ensures r.Some? ==> forall k :: 0 <= k < r.value ==> !IntendedResetLookup(users[k], digest, now)
  {
    FirstIndex(users, (u: User) => IntendedResetLookup(u, digest, now))
  }

  /** Corrected `resetPassword`: reads and clears `resetPasswordExpire`. */
  method ResetPasswordIntended(token: string, password: string, users: seq<User>, now: int, salt: int)
    returns (out: Outcome<UserBody>, users': seq<User>)
    ensures FindIntendedResetUser(users, Sha256Hex(token), now).None? ==>
      out == Reply(400, Message("Invalid or expired token")) && users' == users
    ensures FindIntendedResetUser(users, Sha256Hex(token), now).Some? ==>
      var i := FindIntendedResetUser(users, Sha256Hex(token), now).value;
      && out == Reply(200, Message("Password reset successfully"))
      && |users'| == |users| && (forall k :: 0 <= k < |users| && k != i ==> users'[k] == users[k])
      && (users[i].password.Bcrypt? ==>
            users'[i] == users[i].(password := Bcrypt(Plain(password), salt),
                                   resetPasswordToken := None, resetPasswordExpire := None))
    ensures PasswordsHashed(users) ==> PasswordsHashed(users')
  {
    var hashedToken := Sha256Hex(token);
    var found := FindIntendedResetUser(users, hashedToken, now);
    if found.None? {
      return Reply(400, Message("Invalid or expired token")), users;
    }
    var i := found.value;
    var user := users[i];
    user := user.(password := Plain(password));
    user := user.(resetPasswordToken := None);
    user := user.(resetPasswordExpire := None);
    users' := users[i := PreSave(Some(users[i]), user, salt)];
    out := Reply(200, Message("Password reset successfully"));
  }

  /** Two stores holding the same emails at the same places. */
  predicate SameEmails(a: seq<User>, b: seq<User>)
  {
    |a| == |b| && forall k :: 0 <= k < |a| ==> a[k].email == b[k].email
  }

  lemma SameEmailsSameLookup(a: seq<User>, b: seq<User>, email: string)
    requires SameEmails(a, b)
    ensures FindByEmail(a, email) == FindByEmail(b, email)
  {
  }

  /** As written, the link the reset mail carries never works: whatever the
      clock says, the reset that follows the request is answered 400 and
      leaves the store as the request did. */
  method ResetFlowAsWritten(email: string, users: seq<User>, resetToken: string, now: int, later: int,
                            newPassword: string, salt: int)
    returns (reset: Outcome<UserBody>, users': seq<User>)
    requires ExpiresNeverSet(users)
    ensures reset == Reply(400, Message("Invalid or expired token"))
  {
    var requested, afterRequest, mails := ForgotPassword(email, users, resetToken, now, salt, false);
    var token := if |mails| > 0 then mails[0].token else resetToken;
    reset, users' := ResetPassword(token, newPassword, afterRequest, later, salt);
  }

  /** With the corrected lookup, the mailed token resets the password within
      ten minutes; afterwards the new password, and no other text (the old
      password included), logs the user in, and the same token presented a
      second time, at any moment, is refused. The token is fresh: no document
      holds its digest yet. */
  method ResetFlowIntended(email: string, users: seq<User>, resetToken: string, now: int, later: int,
                           newPassword: string, salt: int, evenLater: int, otherPassword: string)
    returns (reset: Outcome<UserBody>, login: Outcome<UserBody>, users': seq<User>, again: Outcome<UserBody>)
    requires FindByEmail(users, email).Some?
    requires PasswordsHashed(users)
    requires forall k :: 0 <= k < |users| ==> users[k].resetPasswordToken != Some(Sha256Hex(resetToken))
    requires later < now + ResetWindow
    ensures reset == Reply(200, Message("Password reset successfully"))
    ensures login.Reply? && login.status == 200
    ensures FindByEmail(users', email).Some?
    ensures MatchPassword(users'[FindByEmail(users', email).value], newPassword)
    ensures forall t :: t != newPassword ==> !MatchPassword(users'[FindByEmail(users', email).value], t)
    ensures again == Reply(400, Message("Invalid or expired token"))
    ensures PasswordsHashed(users')
  {
    var i := FindByEmail(users, email).value;
    var requested, afterRequest, mails := ForgotPassword(email, users, resetToken, now, salt, false);
    assert FindIntendedResetUser(afterRequest, Sha256Hex(mails[0].token), later) == Some(i) by {
      assert IntendedResetLookup(afterRequest[i], Sha256Hex(resetToken), later);
      assert forall k :: 0 <= k < |afterRequest| && k != i ==> !IntendedResetLookup(afterRequest[k], Sha256Hex(resetToken), later);
    }
    reset, users' := ResetPasswordIntended(mails[0].token, newPassword, afterRequest, later, salt);
    assert SameEmails(users, users');
    SameEmailsSameLookup(users, users', email);
    var doc := afterRequest[i].(password := Plain(newPassword), resetPasswordToken := None, resetPasswordExpire := None);
    assert users'[i] == PreSave(Some(afterRequest[i]), doc, salt);
    forall t | t != newPassword
      ensures !MatchPassword(users'[i], t)
    {
      HashedOnceMatches(doc, Some(afterRequest[i]), newPassword, t, salt);
    }
    var cookie;
    login, cookie := LoginUser(email, newPassword, users');
    assert FindIntendedResetUser(users', Sha256Hex(mails[0].token), evenLater).None? by {
      assert forall k :: 0 <= k < |users'| ==> users'[k].resetPasswordToken != Some(Sha256Hex(resetToken));
    }
    var users'';
    again, users'' := ResetPasswordIntended(mails[0].token, otherPassword, users', evenLater, salt);
  }

  /** With the corrected lookup the link is still refused, and the store is
      left as the request made it, when it is used once the ten minutes have
      passed, or when the token presented is not the one mailed and opens no
      other pending reset. */
  method ResetRefusedIntended(email: string, users: seq<User>, resetToken: string, now: int,
                              presented: string, later: int, newPassword: string, salt: int)
    returns (reset: Outcome<UserBody>, afterRequest: seq<User>, users': seq<User>)
    requires forall k :: 0 <= k < |users| ==> users[k].resetPasswordToken != Some(Sha256Hex(resetToken))
    requires || (presented == resetToken && later >= now + ResetWindow)
             || (presented != resetToken &&
                 forall k :: 0 <= k < |users| ==> !IntendedResetLookup(users[k], Sha256Hex(presented), later))
    ensures reset == Reply(400, Message("Invalid or expired token"))
    ensures users' == afterRequest
  {
    var requested, mails;
    requested, afterRequest, mails := ForgotPassword(email, users, resetToken, now, salt, false);
    assert FindIntendedResetUser(afterRequest, Sha256Hex(presented), later).None? by {
      assert forall k :: 0 <= k < |afterRequest| ==> !IntendedResetLookup(afterRequest[k], Sha256Hex(presented), later);
    }
    reset, users' := ResetPasswordIntended(presented, newPassword, afterRequest, later, salt);
  }

  // ------------------------------------------------------------ profile update

  /** `req.body` of a profile update; any field may be absent. */
  datatype ProfileBody = ProfileBody(
    firstName: Option<string>, lastName: Option<string>, email: Option<string>, password: Option<string>)

  /** `value || current`. */
  function OrKeep(value: Option<string>, current: string): string
  {
    if TruthyStr(value) then value.value else current
  }

  /** What both versions of the update do to everything but the password: a
      truthy name or email replaces the stored one, an upload replaces the
      photo, and the other fields stay. */
  predicate ProfileMerged(u: User, u': User, body: ProfileBody, upload: Option<string>)
  {
    && u'.firstName == (if TruthyStr(body.firstName) then body.firstName.value else u.firstName)
    && u'.lastName == (if TruthyStr(body.lastName) then body.lastName.value else u.lastName)
    && u'.email == (if TruthyStr(body.email) then body.email.value else u.email)
    && u'.photo == (if upload.Some? then upload else u.photo)
    && u'.id == u.id && u'.isAdmin == u.isAdmin && u'.profileImage == u.profileImage
    && u'.resetPasswordToken == u.resetPasswordToken && u'.resetPasswordExpire == u.resetPasswordExpire
    && u'.resetPasswordExpires == u.resetPasswordExpires
  }

  /** The message of the `TypeError` thrown by `req.user._id` when the
      authenticated lookup found nobody. */
  const NullUserMessage := "Cannot read properties of null (reading '_id')"

  /** `updateUserProfile`, as written: a supplied password is hashed with
      `hashSalt`, then hashed again by the hook with `salt`, so that neither
      the new nor the old password matches the stored value afterwards. (The
      model proves that no text matches, since a symbolic double hash equals no
      once-hashed text; in the library the discarded output of the first
      `bcrypt.hash` would match.) */
  method UpdateUserProfile(reqUserId: Option<string>, body: ProfileBody, upload: Option<string>,
                           users: seq<User>, hashSalt: int, salt: int)
    returns (out: Outcome<UserBody>, users': seq<User>)
    ensures reqUserId.None? ==> out == Thrown(200, NullUserMessage) && users' == users
    ensures reqUserId.Some? && FindById(users, reqUserId.value).None? ==>
      out == Thrown(404, "User not found") && users' == users
    ensures reqUserId.Some? && FindById(users, reqUserId.value).Some? ==>
      var i := FindById(users, reqUserId.value).value;
      && |users'| == |users| && (forall k :: 0 <= k < |users| && k != i ==> users'[k] == users[k])
      && ProfileMerged(users[i], users'[i], body, upload)
      && (!TruthyStr(body.password) ==> users'[i].password == users[i].password)
      && (TruthyStr(body.password) && users[i].password != Bcrypt(Plain(body.password.value), hashSalt) ==>
            && users'[i].password == Bcrypt(Bcrypt(Plain(body.password.value), hashSalt), salt)
            && forall t :: !MatchPassword(users'[i], t))
      && out == Reply(200, Profile(UpdateView(users'[i])))
    ensures PasswordsHashed(users) ==> PasswordsHashed(users')
    ensures ExpiresNeverSet(users) ==> ExpiresNeverSet(users')
  {
    if reqUserId.None? {
      return Thrown(200, NullUserMessage), users;
    }
    var found := FindById(users, reqUserId.value);
    if found.None? {
      return Thrown(404, "User not found"), users;
    }
    var i := found.value;
    var user := users[i];
    user := user.(firstName := OrKeep(body.firstName, user.firstName));
    user := user.(lastName := OrKeep(body.lastName, user.lastName));
    user := user.(email := OrKeep(body.email, user.email));
    if upload.Some? {
      user := user.(photo := upload);
    }
    if TruthyStr(body.password) {
      user := user.(password := Bcrypt(Plain(body.password.value), hashSalt));
    }
    var updated := PreSave(Some(users[i]), user, salt);
    users' := users[i := updated];
    out := Reply(200, Profile(UpdateView(updated)));
  }

  /** Corrected `updateUserProfile`: the plain text is assigned and the hook
      hashes it once, so the new password, and no other text, matches. */
  method UpdateUserProfileIntended(reqUserId: Option<string>, body: ProfileBody, upload: Option<string>,
                                   users: seq<User>, salt: int)
    returns (out: Outcome<UserBody>, users': seq<User>)
    ensures reqUserId.None? ==> out == Thrown(200, NullUserMessage) && users' == users
    ensures reqUserId.Some? && FindById(users, reqUserId.value).None? ==>
      out == Thrown(404, "User not found") && users' == users
    ensures reqUserId.Some? && FindById(users, reqUserId.value).Some? ==>
      var i := FindById(users, reqUserId.value).value;
      && |users'| == |users| && (forall k :: 0 <= k < |users| && k != i ==> users'[k] == users[k])
      && ProfileMerged(users[i], users'[i], body, upload)
      && (!TruthyStr(body.password) ==> users'[i].password == users[i].password)
      && (TruthyStr(body.password) && users[i].password.Bcrypt? ==>
            && MatchPassword(users'[i], body.password.value)
            && forall t :: t != body.password.value ==> !MatchPassword(users'[i], t))
      && out == Reply(200, Profile(UpdateView(users'[i])))
    ensures PasswordsHashed(users) ==> PasswordsHashed(users')
  {
    if reqUserId.None? {
      return Thrown(200, NullUserMessage), users;
    }
    var found := FindById(users, reqUserId.value);
    if found.None? {
      return Thrown(404, "User not found"), users;
    }
    var i := found.value;
    var user := users[i];
    user := user.(firstName := OrKeep(body.firstName, user.firstName));
    user := user.(lastName := OrKeep(body.lastName, user.lastName));
    user := user.(email := OrKeep(body.email, user.email));
    if upload.Some? {
      user := user.(photo := upload);
    }
    if TruthyStr(body.password) {
      user := user.(password := Plain(body.password.value));
    }
    var updated := PreSave(Some(users[i]), user, salt);
    users' := users[i := updated];
    out := Reply(200, Profile(UpdateView(updated)));
  }
}
