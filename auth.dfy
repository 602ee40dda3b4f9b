/** The signed-in user as the screens read it from the store (`selectedUser`):
    `{token, data: {user: {...}}, ...}`. Properties the screens never read are
    kept, opaque, in `rest`, so that "every other field is preserved" can be
    stated. The auth slice itself is not part of this model. */
module Auth {
  import opened Common

  datatype UserRecord = UserRecord(
    id: Option<string>,          // `_id`
    username: Option<string>,
    email: Option<string>,
    avatar: Option<string>,
    rest: map<string, string>)

  datatype AuthData = AuthData(user: Option<UserRecord>, rest: map<string, string>)

  datatype AuthState = AuthState(token: Option<string>, data: Option<AuthData>, rest: map<string, string>)

  /** A user as `getAllUsers` lists it and as a chat's members appear; `username` is read with
      `toLowerCase()`, so it is always a string here. */
  datatype ListedUser = ListedUser(id: Option<string>, username: string, avatar: Option<string>)

  /** `currentUser?.data?.user`. */
  function CurrentUserRecord(current: Option<AuthState>): Option<UserRecord> {
    if current.Some? && current.value.data.Some? then current.value.data.value.user else None
  }

  /** `currentUser?.data?.user?._id`. */
  function CurrentUserId(current: Option<AuthState>): (r: Option<string>)
    ensures CurrentUserRecord(current).None? ==> r.None?
    ensures CurrentUserRecord(current).Some? ==> r == CurrentUserRecord(current).value.id
  {
    var u := CurrentUserRecord(current);
    if u.Some? then u.value.id else None
  }

  /** `currentUser?.token`. */
  function TokenOf(current: Option<AuthState>): Option<string> {
    if current.Some? then current.value.token else None
  }
}
