/** Request builders of the message endpoints (`createMessage`, `getMessages`). */
module MessageApi {
  import opened JsValue
  import opened ApiSlice

  datatype Endpoint = CreateMessage | GetMessages

  function ProvidedTags(e: Endpoint): set<Tag> {
    match e
    case CreateMessage => {}
    case GetMessages => {Messages}
  }

  function InvalidatedTags(e: Endpoint): set<Tag> {
    match e
    case CreateMessage => {Messages}
    case GetMessages => {}
  }

  /** Creating a message invalidates a tag that the message history provides,
      so the history is fetched again. */
  lemma CreateRefreshesHistory()
    ensures InvalidatedTags(CreateMessage) * ProvidedTags(GetMessages) != {}
  {
    assert Messages in InvalidatedTags(CreateMessage) * ProvidedTags(GetMessages);
  }

  /** The part of a multipart message body that carries `value` under `name`,
      appended only when `value` is truthy. */
  function OptionalPart(name: string, value: Value): (r: seq<FormPart>)
    ensures Truthy(value) ==> r == [FormPart(name, value)]
    ensures !Truthy(value) ==> r == []
  {
    if Truthy(value) then [FormPart(name, value)] else []
  }

  /** `createMessage.query`: `chatId` is taken out of the argument and used only in the URL;
      with a truthy `file` the body is a FormData holding `messageType` (if truthy), then
      `content` (if truthy), then always `file`; otherwise the body is the remaining
      fields unchanged. */
  method CreateMessageQuery(arg: Value) returns (q: Query)
    ensures q.url == "messages/" + TemplateString(Get(arg, "chatId")) && q.verb == POST
    ensures Truthy(Get(arg, "file")) ==> q.body == Form(
      OptionalPart("messageType", Get(arg, "messageType"))
      + OptionalPart("content", Get(arg, "content"))
      + [FormPart("file", Get(arg, "file"))])
    ensures !Truthy(Get(arg, "file")) ==> q.body == Json(Without(arg, "chatId"))
  {
    var chatId := Get(arg, "chatId");
    var messageData := Without(arg, "chatId");
    if Truthy(Get(messageData, "file")) {
      var formData: seq<FormPart> := [];
      if Truthy(Get(messageData, "messageType")) {
        formData := formData + [FormPart("messageType", Get(messageData, "messageType"))];
      }
      if Truthy(Get(messageData, "content")) {
        formData := formData + [FormPart("content", Get(messageData, "content"))];
      }
      formData := formData + [FormPart("file", Get(messageData, "file"))];
      return Query("messages/" + TemplateString(chatId), POST, Form(formData));
    }
    return Query("messages/" + TemplateString(chatId), POST, Json(messageData));
  }

  /** `getMessages.query`: GET `messages/{chatId}` without a body. */
  function GetMessagesQuery(arg: Value): (q: Query)
    ensures q.verb == GET && q.body == NoBody
    ensures q.url == "messages/" + TemplateString(Get(arg, "chatId"))
    ensures forall c :: Get(arg, "chatId") == Str(c) ==> q.url == "messages/" + c
  {
    Query("messages/" + TemplateString(Get(arg, "chatId")), GET, NoBody)
  }

  /** A message with a file always ends its form body with the file, and never sends `chatId`. */
  lemma FileIsLastPart(arg: Value, q: Query)
    requires Truthy(Get(arg, "file"))
    requires q.body == Form(OptionalPart("messageType", Get(arg, "messageType"))
      + OptionalPart("content", Get(arg, "content"))
      + [FormPart("file", Get(arg, "file"))])
    ensures |q.body.parts| >= 1 && q.body.parts[|q.body.parts| - 1] == FormPart("file", Get(arg, "file"))
    ensures "chatId" !in PartNames(q.body.parts)
    ensures 1 <= |q.body.parts| <= 3
  {
    var ps := q.body.parts;
    var names := PartNames(ps);
    forall i | 0 <= i < |ps| ensures ps[i].name != "chatId" {
      assert ps[i].name in {"messageType", "content", "file"};
    }
  }
}
