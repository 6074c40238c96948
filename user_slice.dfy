/** The client-side account state: the token check the `updateUser` thunk
    makes before any request, and every case of the slice's `extraReducers`. */
module UserSlice {
  import opened Common

  /** A user as the API returns it (never with a password). */
  datatype Account = Account(id: string, firstName: string, lastName: string, email: string, isAdmin: bool)

  datatype UserState = UserState(
    loading: bool,
    loggedInUser: Option<Account>,
    createdUser: Option<Account>,
    passwordResetRequested: bool,
    passwordResetSuccessful: bool,
    updatedUser: Option<Account>,
    users: seq<Account>,
    error: Option<string>)

  const InitialUser := UserState(false, None, None, false, false, None, [], None)

  /** The eight thunks of the slice. */
  datatype Thunk = Signin | SignUp | Logout | RequestPasswordReset | ResetPassword | UpdateUser | FetchUsers | DeleteUser

  datatype UserAction =
    | Pending(thunk: Thunk)
    | Rejected(thunk: Thunk, payload: string)
    | SigninFulfilled(signedIn: Account)
    | SignUpFulfilled(created: Account)
    | LogoutFulfilled
    | RequestPasswordResetFulfilled
    | ResetPasswordFulfilled
    | UpdateUserFulfilled(updated: Account)
    | FetchUsersFulfilled(list: seq<Account>)
    | DeleteUserFulfilled(userId: string)

  /** How the `updateUser` thunk starts: it sends the request with the token,
      or throws before it, and the catch rejects with the default payload
      since the error carries no response. */
  datatype ThunkStart = Request(token: string) | RejectedEarly(payload: string)

  function UpdateUserStart(token: Option<string>): (r: ThunkStart)
    ensures r.RejectedEarly? <==> !TruthyStr(token)
    ensures r.RejectedEarly? ==> r.payload == "An error occurred"
    ensures r.Request? ==> Some(r.token) == token
  {
    if !TruthyStr(token) then RejectedEarly("An error occurred") else Request(token.value)
  }

  /** `users.filter(user => user._id !== userId)`. */
  function RemoveUser(users: seq<Account>, userId: string): (r: seq<Account>)
    ensures forall k :: 0 <= k < |r| ==> r[k].id != userId && r[k] in users
    ensures forall k :: 0 <= k < |users| && users[k].id != userId ==> users[k] in r
  {
    Filter(users, (u: Account) => u.id != userId)
  }

  /** The removal keeps the other users in their order. */
  lemma RemoveUserOrder(a: seq<Account>, b: seq<Account>, userId: string)
    ensures RemoveUser(a + b, userId) == RemoveUser(a, userId) + RemoveUser(b, userId)
    ensures (forall k :: 0 <= k < |a| ==> a[k].id != userId) ==> RemoveUser(a, userId) == a
  {
    FilterAppend(a, b, (u: Account) => u.id != userId);
    FilterKeepsAll(a, (u: Account) => u.id != userId);
  }

  /** The two rejected cases that record their payload. */
  predicate WritesError(t: Thunk)
  {
    t == FetchUsers || t == DeleteUser
  }

  /** The reducer. */
  function Reduce(s: UserState, a: UserAction): (r: UserState)
    ensures a.Pending? ==> r == s.(loading := true)
    ensures a.Rejected? ==>
      && !r.loading
      && r.error == (if WritesError(a.thunk) then Some(a.payload) else s.error)
      && r.passwordResetRequested == (if a.thunk == RequestPasswordReset then false else s.passwordResetRequested)
      && r.passwordResetSuccessful == (if a.thunk == ResetPassword then false else s.passwordResetSuccessful)
      && r.loggedInUser == s.loggedInUser && r.createdUser == s.createdUser
      && r.updatedUser == s.updatedUser && r.users == s.users
    ensures a.SigninFulfilled? ==> r == s.(loading := false, loggedInUser := Some(a.signedIn))
    ensures a.SignUpFulfilled? ==> r == s.(loading := false, createdUser := Some(a.created))
    ensures a.LogoutFulfilled? ==> r == s.(loading := false, loggedInUser := None)
    ensures a.RequestPasswordResetFulfilled? ==> r == s.(loading := false, passwordResetRequested := true)
    ensures a.ResetPasswordFulfilled? ==> r == s.(loading := false, passwordResetSuccessful := true)
    ensures a.UpdateUserFulfilled? ==>
      r == s.(loading := false, updatedUser := Some(a.updated), loggedInUser := Some(a.updated))
    ensures a.FetchUsersFulfilled? ==> r == s.(loading := false, users := a.list)
    ensures a.DeleteUserFulfilled? ==> r == s.(loading := false, users := RemoveUser(s.users, a.userId))
  {
    match a
    case Pending(_) => s.(loading := true)
    case Rejected(thunk, payload) =>
      var s1 := s.(loading := false);
      if thunk == RequestPasswordReset then s1.(passwordResetRequested := false)
      else if thunk == ResetPassword then s1.(passwordResetSuccessful := false)
      else if WritesError(thunk) then s1.(error := Some(payload))
      else s1
    case SigninFulfilled(signedIn) => s.(loading := false, loggedInUser := Some(signedIn))
    case SignUpFulfilled(created) => s.(loading := false, createdUser := Some(created))
    case LogoutFulfilled => s.(loading := false, loggedInUser := None)
    case RequestPasswordResetFulfilled => s.(loading := false, passwordResetRequested := true)
    case ResetPasswordFulfilled => s.(loading := false, passwordResetSuccessful := true)
    case UpdateUserFulfilled(updated) => s.(loading := false, updatedUser := Some(updated), loggedInUser := Some(updated))
    case FetchUsersFulfilled(list) => s.(loading := false, users := list)
    case DeleteUserFulfilled(userId) => s.(loading := false, users := RemoveUser(s.users, userId))
  }

  /** `loading` tells whether the last action was a pending one. */
  lemma LoadingFollowsLastAction(s: UserState, actions: seq<UserAction>)
    requires |actions| > 0
    ensures RunAll(Reduce, s, actions).loading <==> actions[|actions| - 1].Pending?
  {
    LastActionDecides(Reduce, s, actions, (t: UserState) => t.loading, (a: UserAction) => a.Pending?);
  }

  /** Only a signin, a logout or a profile update changes who is logged in:
      every pending and rejected case, and every other fulfilled case, keeps
      `loggedInUser`. */
  lemma {:induction false} LoggedInUserKept(s: UserState, actions: seq<UserAction>)
    requires forall k :: 0 <= k < |actions| ==>
      !actions[k].SigninFulfilled? && !actions[k].LogoutFulfilled? && !actions[k].UpdateUserFulfilled?
    ensures RunAll(Reduce, s, actions).loggedInUser == s.loggedInUser
    decreases |actions|
  {
    if |actions| > 0 {
      LoggedInUserKept(Reduce(s, actions[0]), actions[1..]);
    }
  }

  /** `error` is only ever written by a rejected `fetchUsers` or `deleteUser`,
      and nothing clears it. */
  lemma {:induction false} ErrorWrittenOnlyByListRejections(s: UserState, actions: seq<UserAction>)
    requires forall k :: 0 <= k < |actions| ==> !(actions[k].Rejected? && WritesError(actions[k].thunk))
    ensures RunAll(Reduce, s, actions).error == s.error
    decreases |actions|
  {
    if |actions| > 0 {
      ErrorWrittenOnlyByListRejections(Reduce(s, actions[0]), actions[1..]);
    }
  }

  /** After a profile update is fulfilled, the updated and the logged-in user
      are the same, until a signin, a logout or another update. */
  lemma {:induction false} UpdatedIsLoggedIn(s: UserState, u: Account, actions: seq<UserAction>)
    requires forall k :: 0 <= k < |actions| ==>
      !actions[k].SigninFulfilled? && !actions[k].LogoutFulfilled? && !actions[k].UpdateUserFulfilled?
    ensures var r := RunAll(Reduce, Reduce(s, UpdateUserFulfilled(u)), actions);
            r.updatedUser == r.loggedInUser == Some(u)
    decreases |actions|
  {
    LoggedInUserKept(Reduce(s, UpdateUserFulfilled(u)), actions);
    UpdatedUserKept(Reduce(s, UpdateUserFulfilled(u)), actions);
  }

  lemma {:induction false} UpdatedUserKept(s: UserState, actions: seq<UserAction>)
    requires forall k :: 0 <= k < |actions| ==> !actions[k].UpdateUserFulfilled?
    ensures RunAll(Reduce, s, actions).updatedUser == s.updatedUser
    decreases |actions|
  {
    if |actions| > 0 {
      UpdatedUserKept(Reduce(s, actions[0]), actions[1..]);
    }
  }

  /** A profile update refused for want of a token changes nothing but
      `loading`: the rejection is not one that records its payload. */
  lemma MissingTokenChangesNothing(s: UserState, token: Option<string>)
    requires UpdateUserStart(token).RejectedEarly?
    ensures Reduce(s, Rejected(UpdateUser, UpdateUserStart(token).payload)) == s.(loading := false)
  {
  }

  /** The slice's state, changed in place by each case. */
  class UserStore {
    var loading: bool
    var loggedInUser: Option<Account>
    var createdUser: Option<Account>
    var passwordResetRequested: bool
    var passwordResetSuccessful: bool
    var updatedUser: Option<Account>
    var users: seq<Account>
    var error: Option<string>

    function State(): UserState
      reads this
    {
      UserState(loading, loggedInUser, createdUser, passwordResetRequested, passwordResetSuccessful,
                updatedUser, users, error)
    }

    constructor ()
      ensures State() == InitialUser
    {
      loading, loggedInUser, createdUser := false, None, None;
      passwordResetRequested, passwordResetSuccessful := false, false;
      updatedUser, users, error := None, [], None;
    }

    method Dispatch(a: UserAction)
      modifies this
      ensures State() == Reduce(old(State()), a)
    {
      match a {
        case Pending(_) =>
          loading := true;
        case Rejected(thunk, payload) =>
          loading := false;
          if thunk == RequestPasswordReset {
            passwordResetRequested := false;
          } else if thunk == ResetPassword {
            passwordResetSuccessful := false;
          } else if WritesError(thunk) {
            error := Some(payload);
          }
        case SigninFulfilled(signedIn) =>
          loading := false;
          loggedInUser := Some(signedIn);
        case SignUpFulfilled(created) =>
          loading := false;
          createdUser := Some(created);
        case LogoutFulfilled =>
          loading := false;
          loggedInUser := None;
        case RequestPasswordResetFulfilled =>
          loading := false;
          passwordResetRequested := true;
        case ResetPasswordFulfilled =>
          loading := false;
          passwordResetSuccessful := true;
        case UpdateUserFulfilled(updated) =>
          loading := false;
          updatedUser := Some(updated);
          loggedInUser := Some(updated);
        case FetchUsersFulfilled(list) =>
          loading := false;
          users := list;
        case DeleteUserFulfilled(userId) =>
          loading := false;
          users := RemoveUser(users, userId);
      }
    }
  }
}
