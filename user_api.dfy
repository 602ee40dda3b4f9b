/** Request builders of the user endpoints (`getAllUsers`, `updateUser`). */
module UserApi {
  import opened JsValue
  import opened ApiSlice

  /** `getAllUsers.query`: GET `users` without a body. */
  function GetAllUsersQuery(): (q: Query)
    ensures q.url == "users" && q.verb == GET && q.body == NoBody
  {
    Query("users", GET, NoBody)
  }

  /** `updateUser.query`: PUT `users/updateMe` in both branches. With a truthy `avatar` the
      body is a FormData holding `username` (if truthy) and then `avatar`; otherwise the
      body is the argument object unchanged. */
  method UpdateUserQuery(userData: Value) returns (q: Query)
    ensures q.url == "users/updateMe" && q.verb == PUT
    ensures Truthy(Get(userData, "avatar")) ==> q.body == Form(
      (if Truthy(Get(userData, "username")) then [FormPart("username", Get(userData, "username"))] else [])
      + [FormPart("avatar", Get(userData, "avatar"))])
    ensures !Truthy(Get(userData, "avatar")) ==> q.body == Json(userData)
  {
    if Truthy(Get(userData, "avatar")) {
      var formData: seq<FormPart> := [];
      if Truthy(Get(userData, "username")) {
        formData := formData + [FormPart("username", Get(userData, "username"))];
      }
      formData := formData + [FormPart("avatar", Get(userData, "avatar"))];
      return Query("users/updateMe", PUT, Form(formData));
    }
    return Query("users/updateMe", PUT, Json(userData));
  }
}
