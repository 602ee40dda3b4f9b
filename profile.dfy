/** The profile screen of `src/views/Profile/index.js`: the form's initial values,
    picking an avatar, and submitting the update, which builds the payload,
    sends it, and on success merges the answer into the signed-in user, which
    is then dispatched to the store and written to storage under 'user'. The
    awaited update is split into the call and its settlement; the user captured
    by the submitting render is kept with each call in flight. */
module Profile {
  import opened Common
  import opened JsValue
  import opened ApiSlice
  import opened Auth
  import UserApi

  const UserIdMissing: string := "User ID not found"
  const UpdateSucceeded: string := "Profile updated successfully"
  const UpdateFailed: string := "Failed to update profile"

  datatype ToastKind = Success | Error
  datatype Toast = Toast(kind: ToastKind, text: string)

  datatype FormData = FormData(name: string, email: string, avatar: Option<string>)

  /** The initial form: each field is the user's value when truthy, else ''. */
  function InitialForm(current: Option<AuthState>): (f: FormData)
    ensures var u := CurrentUserRecord(current);
      && (u.Some? && Common.Truthy(u.value.username) ==> f.name == u.value.username.value)
      && (u.None? || !Common.Truthy(u.value.username) ==> f.name == "")
      && (u.Some? && Common.Truthy(u.value.email) ==> f.email == u.value.email.value)
      && (u.None? || !Common.Truthy(u.value.email) ==> f.email == "")
      && (u.Some? && Common.Truthy(u.value.avatar) ==> f.avatar == u.value.avatar)
      && (u.None? || !Common.Truthy(u.value.avatar) ==> f.avatar == Some(""))
  {
    var u := CurrentUserRecord(current);
    if u.None? then FormData("", "", Some(""))
    else FormData(OrElse(u.value.username, ""), OrElse(u.value.email, ""), Some(OrElse(u.value.avatar, "")))
  }

  /** What `launchImageLibrary` resolves to, or that it threw. */
  datatype PickResult = PickCancelled | PickFailed | PickAssets(uris: seq<Option<string>>) | PickThrew

  /** The avatar file object sent for a selected image. */
  function AvatarFile(uri: string): (v: Value)
    ensures Get(v, "uri") == Str(uri) && Get(v, "type") == Str("image/jpeg") && Get(v, "name") == Str("profile-image.jpg")
    ensures JsValue.Truthy(v)
  {
    Obj(map["uri" := Str(uri), "type" := Str("image/jpeg"), "name" := Str("profile-image.jpg")])
  }

  /** `updateData`: always `{username}`, to which `avatar` is added only when an image was selected. */
  method UpdatePayload(name: string, selectedImage: Option<string>) returns (updateData: Value)
    ensures updateData.Obj? && Get(updateData, "username") == Str(name)
    ensures Common.Truthy(selectedImage) ==> Get(updateData, "avatar") == AvatarFile(selectedImage.value)
    ensures !Common.Truthy(selectedImage) ==> updateData == Obj(map["username" := Str(name)])
    ensures "avatar" in updateData.fields <==> Common.Truthy(selectedImage)
  {
    var fields := map["username" := Str(name)];
    if Common.Truthy(selectedImage) {
      fields := fields["avatar" := AvatarFile(selectedImage.value)];
    }
    updateData := Obj(fields);
  }

  /** The request `handleSubmit` makes: with a selected image a multipart body holding the name (if
      non-empty) and then the avatar file; otherwise the JSON object `{username}`. */
  method UpdateRequest(name: string, selectedImage: Option<string>) returns (q: Query)
    ensures q.url == "users/updateMe" && q.verb == PUT
    ensures Common.Truthy(selectedImage) ==> (q.body ==
      Form((if name != "" then [FormPart("username", Str(name))] else []) + [FormPart("avatar", AvatarFile(selectedImage.value))]))
    ensures !Common.Truthy(selectedImage) ==> q.body == Json(Obj(map["username" := Str(name)]))
  {
    var updateData := UpdatePayload(name, selectedImage);
    q := UserApi.UpdateUserQuery(updateData);
  }

  /** The merged user: `data.user.username` and `data.user.avatar` come from the answer, every other
      field of the user, of `data` and of the top level is kept. */
  function MergeUser(current: AuthState, username: Option<string>, avatar: Option<string>): (r: AuthState)
    requires current.data.Some? && current.data.value.user.Some?
    ensures r.token == current.token && r.rest == current.rest
    ensures r.data.Some? && r.data.value.rest == current.data.value.rest && r.data.value.user.Some?
    ensures var before := current.data.value.user.value;
      var after := r.data.value.user.value;
      && after.id == before.id && after.email == before.email && after.rest == before.rest
      && after.username == username && after.avatar == avatar
  {
    var data := current.data.value;
    current.(data := Some(data.(user := Some(data.user.value.(username := username, avatar := avatar)))))
  }

  /** Merging the values the user already has changes nothing, and a second merge overrides the
      first: the merge only ever touches the two answered fields. */
  lemma MergeIsOverride(current: AuthState, u1: Option<string>, a1: Option<string>, u2: Option<string>, a2: Option<string>)
    requires current.data.Some? && current.data.value.user.Some?
    ensures MergeUser(current, current.data.value.user.value.username, current.data.value.user.value.avatar) == current
    ensures MergeUser(MergeUser(current, u1, a1), u2, a2) == MergeUser(current, u2, a2)
    ensures CurrentUserId(Some(MergeUser(current, u1, a1))) == CurrentUserId(Some(current))
  {
  }

  /** How the awaited update settles: it throws (caught), or resolves with a status and
      `data.user.{username, avatar}`. */
  datatype UpdateOutcome = Threw | Resolved(status: string, username: Option<string>, avatar: Option<string>)

  class ProfileScreen {
    /** The signed-in user in the store (`selectedUser`). */
    var current: Option<AuthState>
    /** Persistent storage, by key. */
    var storage: map<string, AuthState>
    var formData: FormData
    var selectedImage: Option<string>
    var toasts: seq<Toast>
    /** Updates in flight, each with the user its submitting render captured. */
    var pending: seq<AuthState>
    /** `navigation.goBack()` was called. */
    var wentBack: bool

    ghost predicate Valid()
      reads this
    {
      forall i :: 0 <= i < |pending| ==> Common.Truthy(CurrentUserId(Some(pending[i])))
    }

    constructor (current: Option<AuthState>, storage: map<string, AuthState>)
      ensures Valid()
      ensures this.current == current && this.storage == storage && formData == InitialForm(current)
      ensures selectedImage == None && toasts == [] && pending == [] && !wentBack
    {
      this.current := current;
      this.storage := storage;
      formData := InitialForm(current);
      selectedImage := None;
      toasts := [];
      pending := [];
      wentBack := false;
    }

    method SetName(name: string)
      requires Valid()
      modifies this
      ensures Valid()
      ensures formData == old(formData).(name := name)
      ensures current == old(current) && storage == old(storage) && selectedImage == old(selectedImage)
      ensures toasts == old(toasts) && pending == old(pending) && wentBack == old(wentBack)
    {
      formData := formData.(name := name);
    }

    /** `handleImagePick()` once the picker settles: the first asset's uri becomes the selected
        image and the form's avatar; cancelling, an error, an exception, or an empty asset list
        (whose `assets[0].uri` throws and is caught) leave both unchanged. */
    method HandleImagePick(result: PickResult)
      requires Valid()
      modifies this
      ensures Valid()
      ensures result.PickAssets? && |result.uris| > 0 ==>
        selectedImage == result.uris[0] && formData == old(formData).(avatar := result.uris[0])
      ensures !(result.PickAssets? && |result.uris| > 0) ==>
        selectedImage == old(selectedImage) && formData == old(formData)
      ensures current == old(current) && storage == old(storage)
      ensures toasts == old(toasts) && pending == old(pending) && wentBack == old(wentBack)
    {
      match result
      case PickAssets(uris) =>
        if |uris| > 0 {
          var imageUri := uris[0];
          selectedImage := imageUri;
          formData := formData.(avatar := imageUri);
        }
      case _ =>
    }

    /** `handleSubmit()`: without a user id an error toast is shown and nothing is sent; otherwise
        the update request is made and the current user is captured with it. */
    method HandleSubmit() returns (q: Option<Query>)
      requires Valid()
      modifies this
      ensures Valid()
      ensures !Common.Truthy(CurrentUserId(current)) ==>
        q == None && toasts == old(toasts) + [Toast(Error, UserIdMissing)] && pending == old(pending)
      ensures Common.Truthy(CurrentUserId(current)) ==>
        && q.Some? && q.value.url == "users/updateMe" && q.value.verb == PUT
        && (Common.Truthy(selectedImage) ==> q.value.body == Form(
              (if formData.name != "" then [FormPart("username", Str(formData.name))] else [])
              + [FormPart("avatar", AvatarFile(selectedImage.value))]))
        && (!Common.Truthy(selectedImage) ==> q.value.body == Json(Obj(map["username" := Str(formData.name)])))
        && toasts == old(toasts) && pending == old(pending) + [current.value]
      ensures current == old(current) && storage == old(storage) && formData == old(formData)
      ensures selectedImage == old(selectedImage) && wentBack == old(wentBack)
    {
      if !Common.Truthy(CurrentUserId(current)) {
        toasts := toasts + [Toast(Error, UserIdMissing)];
        return None;
      }
      var query := UpdateRequest(formData.name, selectedImage);
      q := Some(query);
      pending := pending + [current.value];
    }

    /** The update with index `i` settles. On status 'success' the captured user merged with the
        answer is dispatched; when storing it under 'user' also succeeds a success toast is shown and
        the screen goes back, otherwise the storage failure is caught as an error. An exception from
        the request shows the error toast; any other status does nothing. */
    method OnSubmitSettled(i: nat, outcome: UpdateOutcome, storageOk: bool)
      requires Valid() && i < |pending|
      modifies this
      ensures Valid()
      ensures pending == old(pending[..i] + pending[i + 1..])
      ensures outcome.Resolved? && outcome.status == "success" ==>
        var updated := MergeUser(old(pending[i]), outcome.username, outcome.avatar);
        && current == Some(updated)
        && (storageOk ==> storage == old(storage)["user" := updated] && wentBack
                          && toasts == old(toasts) + [Toast(Success, UpdateSucceeded)])
        && (!storageOk ==> storage == old(storage) && wentBack == old(wentBack)
                           && toasts == old(toasts) + [Toast(Error, UpdateFailed)])
      ensures outcome.Threw? ==>
        current == old(current) && storage == old(storage) && wentBack == old(wentBack)
        && toasts == old(toasts) + [Toast(Error, UpdateFailed)]
      ensures outcome.Resolved? && outcome.status != "success" ==>
        current == old(current) && storage == old(storage) && wentBack == old(wentBack) && toasts == old(toasts)
      ensures formData == old(formData) && selectedImage == old(selectedImage)
    {
      var captured := pending[i];
      pending := pending[..i] + pending[i + 1..];
      assert forall k :: 0 <= k < |pending| ==> pending[k] in old(pending);
      match outcome
      case Threw =>
        toasts := toasts + [Toast(Error, UpdateFailed)];
      case Resolved(status, username, avatar) =>
        if status == "success" {
          var updated := MergeUser(captured, username, avatar);
          current := Some(updated);
          if storageOk {
            storage := storage["user" := updated];
            toasts := toasts + [Toast(Success, UpdateSucceeded)];
            wentBack := true;
          } else {
            toasts := toasts + [Toast(Error, UpdateFailed)];
          }
        }
    }
  }

  /** After a successful update the store and storage hold the same user, whose id, email and other
      fields are those of the user the submit captured. */
  lemma StoreAndStorageAgree(captured: AuthState, username: Option<string>, avatar: Option<string>)
    requires Common.Truthy(CurrentUserId(Some(captured)))
    ensures var updated := MergeUser(captured, username, avatar);
      && CurrentUserId(Some(updated)) == CurrentUserId(Some(captured))
      && CurrentUserRecord(Some(updated)).value.username == username
      && CurrentUserRecord(Some(updated)).value.avatar == avatar
      && TokenOf(Some(updated)) == TokenOf(Some(captured))
  {
  }
}
