/** The user document and the two pieces of logic the schema carries: the
    pre-save hook that hashes a modified password, and `matchPassword`. Hashes
    are symbolic terms, so that a hash is never equal to a different input's
    hash nor to a plain text (bcrypt and SHA-256 taken as collision-free). */
module UserModel {
  import opened Common

  /** A password value: the text a client sent, or `bcrypt.hash(of, salt)`. */
  datatype Secret = Plain(text: string) | Bcrypt(of: Secret, salt: int)

  /** `crypto.createHash('sha256').update(input).digest('hex')`. */
  datatype Digest = Sha256Hex(input: string)

  /** The fields the controllers read or write, each under its own name: the
      reset flow writes `resetPasswordExpire` and reads `resetPasswordExpires`,
      and the profile update writes `photo` while registration stores
      `profileImage`. */
  datatype User = User(
    id: string,
    firstName: string,
    lastName: string,
    email: string,
    password: Secret,
    isAdmin: bool,
    profileImage: string,
    photo: Option<string>,
    resetPasswordToken: Option<Digest>,
    resetPasswordExpire: Option<int>,
    resetPasswordExpires: Option<int>)

  const DefaultProfileImage := "https://res.cloudinary.com/dc1zy9h63/image/upload/v1726679186/icon-5359553_640_kkdoli.webp"

  /** The pre-save hook: a new document, or one whose password changed, has
      its password replaced by a bcrypt hash with a fresh salt. */
  function PreSave(before: Option<User>, doc: User, salt: int): (r: User)
    ensures before.None? || before.value.password != doc.password ==> r == doc.(password := Bcrypt(doc.password, salt))
    ensures before.Some? && before.value.password == doc.password ==> r == doc
  {
    if before.None? || before.value.password != doc.password then doc.(password := Bcrypt(doc.password, salt))
    else doc
  }

  /** `bcrypt.compare(entered, stored)`: the stored value is a bcrypt hash of
      exactly this text. */
  predicate Compare(entered: string, stored: Secret)
  {
    stored.Bcrypt? && stored.of == Plain(entered)
  }

  /** `user.matchPassword(entered)`. */
  predicate MatchPassword(u: User, entered: string)
  {
    Compare(entered, u.password)
  }

  /** A password that went through the hook once is matched by its own text
      and by no other. */
  lemma HashedOnceMatches(doc: User, before: Option<User>, text: string, other: string, salt: int)
    requires doc.password == Plain(text)
    requires before.None? || before.value.password != doc.password
    ensures MatchPassword(PreSave(before, doc, salt), text)
    ensures other != text ==> !MatchPassword(PreSave(before, doc, salt), other)
  {
  }

  /** `User.findOne({ email })`: the first document with that email. */
  function FindByEmail(users: seq<User>, email: string): (r: Option<nat>)
    ensures r.Some? ==> r.value < |users| && users[r.value].email == email
    ensures r.None? <==> forall k :: 0 <= k < |users| ==> users[k].email != email
    ensures r.Some? ==> forall k :: 0 <= k < r.value ==> users[k].email != email
  {
    FirstIndex(users, (u: User) => u.email == email)
  }

  /** `User.findById(id)`. */
  function FindById(users: seq<User>, id: string): (r: Option<nat>)
    ensures r.Some? ==> r.value < |users| && users[r.value].id == id
    ensures r.None? <==> forall k :: 0 <= k < |users| ==> users[k].id != id
    ensures r.Some? ==> forall k :: 0 <= k < r.value ==> users[k].id != id
  {
    FirstIndex(users, (u: User) => u.id == id)
  }
}
