/** Request builders of the chat endpoints and the cache tags they provide and
    invalidate. Each builder is an object literal made from its argument. */
module ChatApi {
  import opened JsValue
  import opened ApiSlice
  import MessageApi

  datatype Endpoint =
    | CreateChat | GetChat | CreateGroupChat | UpdateGroupChat
    | GroupInfo | AddGroupMember | RemoveGroupMember

  predicate IsMutation(e: Endpoint) {
    e in {CreateChat, CreateGroupChat, UpdateGroupChat, AddGroupMember, RemoveGroupMember}
  }

  function ProvidedTags(e: Endpoint): set<Tag> {
    if e == GetChat then {Chats, Messages} else {}
  }

  function InvalidatedTags(e: Endpoint): set<Tag> {
    if IsMutation(e) then {Chats} else {}
  }

  /** The request an endpoint builds from its argument. The create endpoints send the argument
      itself and the reads send nothing; the group endpoints read their body only from
      `arg.data`, with `chatId` going into the URL and nothing else of the argument sent. */
  function QueryOf(e: Endpoint, arg: Value): (q: Query)
    ensures IsMutation(e) <==> q.verb != GET
    ensures e in {CreateChat, CreateGroupChat, AddGroupMember} ==> q.verb == POST
    ensures e == UpdateGroupChat ==> q.verb == PUT
    ensures e == RemoveGroupMember ==> q.verb == DELETE
    ensures e in {CreateChat, CreateGroupChat} ==> q.body == Json(arg)
    ensures e in {GetChat, GroupInfo} ==> q.body == NoBody
    ensures e in {UpdateGroupChat, AddGroupMember, RemoveGroupMember} ==> q.body == Json(Get(arg, "data"))
    ensures e in {CreateChat, GetChat} ==> q.url == "chats"
    ensures e == CreateGroupChat ==> q.url == "chats/group"
    ensures e == GroupInfo ==> q.url == "chats/group/" + TemplateString(arg)
    ensures e in {UpdateGroupChat, RemoveGroupMember} ==> q.url == "chats/group/" + TemplateString(Get(arg, "chatId"))
    ensures e == AddGroupMember ==> q.url == "chats/group/" + TemplateString(Get(arg, "chatId")) + "/add"
  {
    match e
    case CreateChat => Query("chats", POST, Json(arg))
    case GetChat => Query("chats", GET, NoBody)
    case CreateGroupChat => Query("chats/group", POST, Json(arg))
    case UpdateGroupChat =>
      Query("chats/group/" + TemplateString(Get(arg, "chatId")), PUT, Json(Get(arg, "data")))
    case GroupInfo => Query("chats/group/" + TemplateString(arg), GET, NoBody)
    case AddGroupMember =>
      Query("chats/group/" + TemplateString(Get(arg, "chatId")) + "/add", POST, Json(Get(arg, "data")))
    case RemoveGroupMember =>
      Query("chats/group/" + TemplateString(Get(arg, "chatId")), DELETE, Json(Get(arg, "data")))
  }

  /** Every mutation invalidates `Chats`, which the chat list provides, so the list is refetched
      after each of them; the group-info query provides no tag, so no mutation refreshes it. */
  lemma MutationsRefreshChatList(e: Endpoint)
    ensures IsMutation(e) <==> Chats in InvalidatedTags(e)
    ensures IsMutation(e) ==> InvalidatedTags(e) * ProvidedTags(GetChat) != {}
    ensures InvalidatedTags(e) * ProvidedTags(GroupInfo) == {}
  {
    if IsMutation(e) {
      assert Chats in InvalidatedTags(e) * ProvidedTags(GetChat);
    }
  }

  /** Sending a message also refreshes the chat list, which provides `Messages` too. */
  lemma MessageRefreshesChatList()
    ensures MessageApi.InvalidatedTags(MessageApi.CreateMessage) * ProvidedTags(GetChat) != {}
  {
    assert Messages in MessageApi.InvalidatedTags(MessageApi.CreateMessage) * ProvidedTags(GetChat);
  }

  /** An argument carrying its fields at the top level (`{chatId, chatName}` or `{chatId, userId}`)
      rather than under `data` yields an undefined body. */
  lemma TopLevelFieldsAreDropped(e: Endpoint, chatId: string, key: string, v: Value)
    requires e in {UpdateGroupChat, AddGroupMember, RemoveGroupMember}
    requires key != "data"
    ensures QueryOf(e, Obj(map["chatId" := Str(chatId), key := v])).body == Json(Undefined)
  {
    assert "data" !in map["chatId" := Str(chatId), key := v];
  }
}
