/** The chat screen of `src/views/Chat/components/Chat.js`: the socket events it
    emits and handles, the newest-first message list, the typing debounce, and
    the send and upload handlers. The socket is the one `getSocket()` returned at
    mount (an index into the clients of the socket module), each awaited
    mutation is split into the call and its settlement, and each timer is a
    step that fires. */
module ChatScreen {
  import opened Common
  import opened JsValue
  import opened ApiSlice
  import opened Auth
  import MessageApi

  /** A message as the server sends it; `createdAt` is the parsed timestamp in milliseconds and
      `payload` the rest of the record. */
  datatype ChatMessage = ChatMessage(chatId: Option<string>, sender: Option<string>, createdAt: int, payload: Value)

  datatype ChatEvent =
    | Setup(user: UserRecord)
    | JoinChat(chatId: Option<string>)
    | CheckOnline(userId: Option<string>)
    | Typing(chatId: Option<string>)
    | StopTyping(chatId: Option<string>)
    | NewMessage(message: ChatMessage)

  /** One `emit` on the socket with the given index. */
  datatype Emission = Emission(socket: nat, event: ChatEvent)

  /** How an awaited `createMessage(...).unwrap()` settles: it throws (caught and logged), or
      resolves with a status and `data.message`. */
  datatype CreateOutcome = Threw | Resolved(status: string, message: ChatMessage)

  /** The picked file handed to `handleFileUpload`. */
  datatype FileData = FileData(uri: Option<string>, mimeType: Option<string>, name: Option<string>)

  // ---------------------------------------------------------------------------
  // Incoming messages and the newest-first order

  /** The `message received` filter: the message belongs to this chat and someone else sent it. */
  predicate Accepts(chatId: Option<string>, myId: Option<string>, m: ChatMessage) {
    m.chatId == chatId && m.sender != myId
  }

  /** Ordered by the comparator `new Date(b.createdAt) - new Date(a.createdAt)`. */
  predicate NewestFirst(s: seq<ChatMessage>) {
    forall i, j :: 0 <= i < j < |s| ==> s[i].createdAt >= s[j].createdAt
  }

  /** Where a stable sort places `m` when it follows the list `s`: after every element that is
      not older than it. */
  function InsertionPoint(s: seq<ChatMessage>, m: ChatMessage): (k: nat)
    ensures k <= |s|
    ensures forall i :: k <= i < |s| ==> s[i].createdAt < m.createdAt
    decreases |s|
  {
    if s == [] || s[|s| - 1].createdAt >= m.createdAt then |s|
    else InsertionPoint(s[..|s| - 1], m)
  }

  /** `m` inserted into `s` at its insertion point. */
  function InsertNewestFirst(s: seq<ChatMessage>, m: ChatMessage): (r: seq<ChatMessage>)
    ensures r == s[..InsertionPoint(s, m)] + [m] + s[InsertionPoint(s, m)..]
    ensures multiset(r) == multiset(s) + multiset{m}
    decreases |s|
  {
    if s == [] || s[|s| - 1].createdAt >= m.createdAt then
      SpliceCount(s, |s|, m);
      s + [m]
    else
      var n := |s| - 1;
      SpliceLast(s, InsertionPoint(s[..n], m), m);
      SpliceCount(s, InsertionPoint(s, m), m);
      InsertNewestFirst(s[..n], m) + [s[n]]
  }

  lemma SpliceLast<T>(s: seq<T>, k: nat, m: T)
    requires k < |s|
    ensures s[..|s| - 1][..k] + [m] + s[..|s| - 1][k..] + [s[|s| - 1]] == s[..k] + [m] + s[k..]
  {
    var n := |s| - 1;
    assert s[..n][..k] == s[..k];
    assert s[..n][k..] + [s[n]] == s[k..];
  }

  lemma SpliceCount<T>(s: seq<T>, k: nat, m: T)
    requires k <= |s|
    ensures multiset(s[..k] + [m] + s[k..]) == multiset(s) + multiset{m}
  {
    assert s == s[..k] + s[k..];
  }

  /** Inserting into a newest-first list keeps it newest-first. */
  lemma {:induction false} InsertKeepsOrder(s: seq<ChatMessage>, m: ChatMessage)
    requires NewestFirst(s)
    ensures NewestFirst(InsertNewestFirst(s, m))
    decreases |s|
  {
    if s == [] || s[|s| - 1].createdAt >= m.createdAt {
      AppendKeepsOrder(s, m);
    } else {
      var n := |s| - 1;
      InsertKeepsOrder(s[..n], m);
      InsertBeforeLastKeepsOrder(s, m);
    }
  }

  lemma AppendKeepsOrder(s: seq<ChatMessage>, m: ChatMessage)
    requires NewestFirst(s)
    requires s == [] || s[|s| - 1].createdAt >= m.createdAt
    ensures NewestFirst(s + [m])
  {
    var r := s + [m];
    forall i, j | 0 <= i < j < |r|
      ensures r[i].createdAt >= r[j].createdAt
    {
      assert r[i] == s[i];
      if j == |s| {
        if i < |s| - 1 {
          assert s[i].createdAt >= s[|s| - 1].createdAt;
        }
      } else {
        assert r[j] == s[j];
      }
    }
  }

  lemma InsertBeforeLastKeepsOrder(s: seq<ChatMessage>, m: ChatMessage)
    requires NewestFirst(s) && s != [] && s[|s| - 1].createdAt < m.createdAt
    requires NewestFirst(InsertNewestFirst(s[..|s| - 1], m))
    ensures NewestFirst(InsertNewestFirst(s, m))
  {
    var n := |s| - 1;
    var p := s[..n];
    var q := InsertNewestFirst(p, m);
    assert InsertNewestFirst(s, m) == q + [s[n]];
    LastIsOldest(s);
    forall x | x in q
      ensures x.createdAt >= s[n].createdAt
    {
      assert x in multiset(q);
    }
    AppendOldest(q, s[n]);
  }

  lemma LastIsOldest(s: seq<ChatMessage>)
    requires NewestFirst(s) && s != []
    ensures forall x :: x in s[..|s| - 1] ==> x.createdAt >= s[|s| - 1].createdAt
  {
    forall x | x in s[..|s| - 1]
      ensures x.createdAt >= s[|s| - 1].createdAt
    {
      var i :| 0 <= i < |s| - 1 && s[..|s| - 1][i] == x;
      assert s[i] == x;
    }
  }

  lemma AppendOldest(q: seq<ChatMessage>, y: ChatMessage)
    requires NewestFirst(q)
    requires forall x :: x in q ==> x.createdAt >= y.createdAt
    ensures NewestFirst(q + [y])
  {
    var r := q + [y];
    forall i, j | 0 <= i < j < |r|
      ensures r[i].createdAt >= r[j].createdAt
    {
      assert r[i] == q[i] && q[i] in q;
      if j < |q| {
        assert r[j] == q[j];
      }
    }
  }

  /** Every message before the insertion point is at least as new as the inserted one: equal
      timestamps keep their arrival order. */
  lemma InsertIsStable(s: seq<ChatMessage>, m: ChatMessage)
    requires NewestFirst(s)
    ensures forall i :: 0 <= i < InsertionPoint(s, m) ==> s[i].createdAt >= m.createdAt
  {
    var k := InsertionPoint(s, m);
    InsertionPointBound(s, m);
    if k > 0 {
      assert forall i :: 0 <= i < k - 1 ==> s[i].createdAt >= s[k - 1].createdAt;
    }
  }

  lemma {:induction false} InsertionPointBound(s: seq<ChatMessage>, m: ChatMessage)
    ensures InsertionPoint(s, m) > 0 ==> s[InsertionPoint(s, m) - 1].createdAt >= m.createdAt
    decreases |s|
  {
    if s != [] && s[|s| - 1].createdAt < m.createdAt {
      InsertionPointBound(s[..|s| - 1], m);
    }
  }

  /** `[...list].sort(newest first)`: a stable insertion sort. */
  function SortNewestFirst(s: seq<ChatMessage>): (r: seq<ChatMessage>)
    ensures NewestFirst(r)
    ensures multiset(r) == multiset(s) && |r| == |s|
    decreases |s|
  {
    if s == [] then []
    else
      var n := |s| - 1;
      assert s == s[..n] + [s[n]];
      var sorted := SortNewestFirst(s[..n]);
      InsertKeepsOrder(sorted, s[n]);
      InsertNewestFirst(sorted, s[n])
  }

  /** Sorting a list that is already newest-first leaves it as it is. */
  lemma {:induction false} SortedIsFixpoint(s: seq<ChatMessage>)
    requires NewestFirst(s)
    ensures SortNewestFirst(s) == s
    decreases |s|
  {
    if s != [] {
      SortedIsFixpoint(s[..|s| - 1]);
    }
  }

  /** Appending one message to a newest-first list and sorting is inserting it after every
      message that is not older. */
  lemma {:induction false} AppendThenSortIsInsert(prev: seq<ChatMessage>, m: ChatMessage)
    requires NewestFirst(prev)
    ensures SortNewestFirst(prev + [m]) == InsertNewestFirst(prev, m)
  {
    assert (prev + [m])[..|prev|] == prev;
    SortedIsFixpoint(prev);
  }

  // ---------------------------------------------------------------------------
  // Uploads

  /** `messageType` of an upload: 'document' exactly for a PDF, 'image' for anything else. */
  function UploadKind(mimeType: Option<string>): (r: string)
    ensures r == "document" <==> mimeType == Some("application/pdf")
    ensures r == "image" <==> mimeType != Some("application/pdf")
  {
    if mimeType == Some("application/pdf") then "document" else "image"
  }

  /** The `file` object of an upload: the uri as given, the type defaulting to 'image/jpeg' and the
      name defaulting by kind. */
  function FileValue(file: FileData): (r: Value)
    ensures Get(r, "uri") == StrField(file.uri)
    ensures Common.Truthy(file.mimeType) ==> Get(r, "type") == Str(file.mimeType.value)
    ensures !Common.Truthy(file.mimeType) ==> Get(r, "type") == Str("image/jpeg")
    ensures Common.Truthy(file.name) ==> Get(r, "name") == Str(file.name.value)
    ensures !Common.Truthy(file.name) && UploadKind(file.mimeType) == "document" ==> Get(r, "name") == Str("document.pdf")
    ensures !Common.Truthy(file.name) && UploadKind(file.mimeType) == "image" ==> Get(r, "name") == Str("image.jpg")
  {
    var isPdf := file.mimeType == Some("application/pdf");
    Obj(map[
      "uri" := StrField(file.uri),
      "type" := Str(OrElse(file.mimeType, "image/jpeg")),
      "name" := Str(OrElse(file.name, if isPdf then "document.pdf" else "image.jpg"))])
  }

  /** A nameless PDF is sent as a document called 'document.pdf'; a nameless file of any other type
      is an image called 'image.jpg', and a typeless file is sent as 'image/jpeg'. */
  lemma UploadDefaults(uri: Option<string>, mimeType: Option<string>)
    ensures mimeType == Some("application/pdf") ==>
      UploadKind(mimeType) == "document" && Get(FileValue(FileData(uri, mimeType, None)), "name") == Str("document.pdf")
    ensures mimeType != Some("application/pdf") ==>
      UploadKind(mimeType) == "image" && Get(FileValue(FileData(uri, mimeType, None)), "name") == Str("image.jpg")
    ensures Get(FileValue(FileData(uri, None, None)), "type") == Str("image/jpeg")
  {
  }

  /** The request `sendMessage` makes: `createMessage({chatId, content, messageType: 'text'})`
      posts to the chat's URL with a JSON body that no longer holds `chatId`. */
  method TextMessageQuery(chatId: string, content: string) returns (q: Query)
    ensures q == Query("messages/" + chatId, POST, Json(Obj(map["content" := Str(content), "messageType" := Str("text")])))
  {
    var fields := map["chatId" := Str(chatId), "content" := Str(content), "messageType" := Str("text")];
    var rest := map["content" := Str(content), "messageType" := Str("text")];
    assert fields - {"chatId"} == rest by {
      assert (fields - {"chatId"}).Keys == rest.Keys;
    }
    assert "file" !in fields;
    q := MessageApi.CreateMessageQuery(Obj(fields));
  }

  /** The request `handleFileUpload` makes: `createMessage({chatId, messageType, file})` posts a
      multipart body holding the kind and then the file object, with no content part. */
  method UploadQuery(chatId: string, file: FileData) returns (q: Query)
    ensures q == Query("messages/" + chatId, POST,
      Form([FormPart("messageType", Str(UploadKind(file.mimeType))), FormPart("file", FileValue(file))]))
  {
    var kind := Str(UploadKind(file.mimeType));
    var fileValue := FileValue(file);
    var fields := map["chatId" := Str(chatId), "messageType" := kind, "file" := fileValue];
    var arg := Obj(fields);
    assert fields["chatId"] == Str(chatId) && fields["messageType"] == kind && fields["file"] == fileValue;
    assert "content" !in fields;
    assert MessageApi.OptionalPart("content", Get(arg, "content")) == [];
    q := MessageApi.CreateMessageQuery(arg);
  }

  // ---------------------------------------------------------------------------
  // The screen

  class Chat {
    /** Route params. */
    const chatId: Option<string>
    const peerId: Option<string>
    /** `currentUser.data.user` at mount. */
    const me: UserRecord
    /** `socketRef.current`: the socket `getSocket()` returned at mount. */
    const socketRef: Option<nat>

    var message: string
    var messages: seq<ChatMessage>
    var isUserOnline: bool
    var isTyping: bool
    var userTyping: bool
    /** Whether the five socket listeners are registered (until cleanup). */
    var listening: bool
    /** The pending 3000 ms typing timer, holding the `isTyping` its callback captured. */
    var pendingTimer: Option<bool>
    /** Awaited `createMessage` calls from `sendMessage` and `handleFileUpload` not yet settled. */
    var sendsPending: nat
    var uploadsPending: nat
    var emitted: seq<Emission>

    ghost predicate Valid()
      reads this
    {
      && NewestFirst(messages)
      && (pendingTimer.Some? ==> socketRef.Some?)
      && (listening ==> socketRef.Some?)
    }

    /** Mount: `setupSocket` emits `setup` with the user, `join chat`, registers the listeners and
        emits `check online` for the peer, all only when a socket exists. */
    constructor (chatId: Option<string>, peerId: Option<string>, me: UserRecord, socket: Option<nat>)
      ensures Valid()
      ensures this.chatId == chatId && this.peerId == peerId && this.me == me && socketRef == socket
      ensures message == "" && messages == [] && !isUserOnline && !isTyping && !userTyping
      ensures pendingTimer == None && sendsPending == 0 && uploadsPending == 0
      ensures socket.None? ==> !listening && emitted == []
      ensures socket.Some? ==> (listening && emitted ==
        [Emission(socket.value, Setup(me)), Emission(socket.value, JoinChat(chatId)), Emission(socket.value, CheckOnline(peerId))])
    {
      this.chatId := chatId;
      this.peerId := peerId;
      this.me := me;
      socketRef := socket;
      message := "";
      messages := [];
      isUserOnline := false;
      isTyping := false;
      userTyping := false;
      pendingTimer := None;
      sendsPending := 0;
      uploadsPending := 0;
      if socket.Some? {
        emitted := [Emission(socket.value, Setup(me)), Emission(socket.value, JoinChat(chatId))];
        listening := true;
        emitted := emitted + [Emission(socket.value, CheckOnline(peerId))];
      } else {
        emitted := [];
        listening := false;
      }
    }

    /** `message received`: an accepted message is appended and the list re-sorted newest-first,
        which puts it after every message that is not older; any other message changes nothing. */
    method OnMessageReceived(m: ChatMessage)
      requires Valid()
      modifies this
      ensures Valid()
      ensures listening && Accepts(chatId, me.id, m) ==>
        messages == SortNewestFirst(old(messages) + [m]) && messages == InsertNewestFirst(old(messages), m)
      ensures !(listening && Accepts(chatId, me.id, m)) ==> messages == old(messages)
      ensures |messages| == |old(messages)| + (if listening && Accepts(chatId, me.id, m) then 1 else 0)
      ensures message == old(message) && isUserOnline == old(isUserOnline) && isTyping == old(isTyping)
      ensures userTyping == old(userTyping) && listening == old(listening) && pendingTimer == old(pendingTimer)
      ensures sendsPending == old(sendsPending) && uploadsPending == old(uploadsPending) && emitted == old(emitted)
    {
      if listening && m.chatId == chatId && m.sender != me.id {
        var before := messages;
        var after := SortNewestFirst(before + [m]);
        AppendThenSortIsInsert(before, m);
        assert |after| == |before| + 1;
        messages := after;
      }
    }

    /** The history query's data arrived: when it holds `data.messages`, they replace the list,
        sorted newest-first; otherwise the list is kept. */
    method OnHistoryLoaded(history: Option<seq<ChatMessage>>)
      requires Valid()
      modifies this
      ensures Valid()
      ensures history.Some? ==> messages == SortNewestFirst(history.value)
      ensures history.Some? ==> multiset(messages) == multiset(history.value)
      ensures history.None? ==> messages == old(messages)
      ensures message == old(message) && isUserOnline == old(isUserOnline) && isTyping == old(isTyping)
      ensures userTyping == old(userTyping) && listening == old(listening) && pendingTimer == old(pendingTimer)
      ensures sendsPending == old(sendsPending) && uploadsPending == old(uploadsPending) && emitted == old(emitted)
    {
      if history.Some? {
        messages := SortNewestFirst(history.value);
      }
    }

    /** `user online` / `user offline`: the flag follows only events about the chat peer. */
    method OnPresence(userId: Option<string>, online: bool)
      requires Valid()
      modifies this
      ensures Valid()
      ensures listening && userId == peerId ==> isUserOnline == online
      ensures !(listening && userId == peerId) ==> isUserOnline == old(isUserOnline)
      ensures message == old(message) && messages == old(messages) && isTyping == old(isTyping)
      ensures userTyping == old(userTyping) && listening == old(listening) && pendingTimer == old(pendingTimer)
      ensures sendsPending == old(sendsPending) && uploadsPending == old(uploadsPending) && emitted == old(emitted)
    {
      if listening && userId == peerId {
        isUserOnline := online;
      }
    }

    /** `typing` / `stop typing` from the server: the peer indicator follows, for whatever chat
        the event came from. */
    method OnPeerTyping(typing: bool)
      requires Valid()
      modifies this
      ensures Valid()
      ensures listening ==> userTyping == typing
      ensures !listening ==> userTyping == old(userTyping)
      ensures message == old(message) && messages == old(messages) && isTyping == old(isTyping)
      ensures isUserOnline == old(isUserOnline) && listening == old(listening) && pendingTimer == old(pendingTimer)
      ensures sendsPending == old(sendsPending) && uploadsPending == old(uploadsPending) && emitted == old(emitted)
    {
      if listening {
        userTyping := typing;
      }
    }

    /** `handleTyping(text)`: the input takes the text; with a socket, `typing` is emitted only on
        the not-typing to typing edge, and the pending timer is replaced by a new one whose callback
        captured the `isTyping` seen by this keystroke. */
    method HandleTyping(text: string)
      requires Valid()
      modifies this
      ensures Valid()
      ensures message == text
      ensures socketRef.None? ==> isTyping == old(isTyping) && pendingTimer == old(pendingTimer) && emitted == old(emitted)
      ensures socketRef.Some? ==> isTyping && pendingTimer == Some(old(isTyping))
      ensures socketRef.Some? ==> emitted == old(emitted) + (if old(isTyping) then [] else [Emission(socketRef.value, Typing(chatId))])
      ensures messages == old(messages) && isUserOnline == old(isUserOnline) && userTyping == old(userTyping)
      ensures listening == old(listening) && sendsPending == old(sendsPending) && uploadsPending == old(uploadsPending)
    {
      message := text;
      if socketRef.Some? {
        var captured := isTyping;
        if !isTyping {
          isTyping := true;
          emitted := emitted + [Emission(socketRef.value, Typing(chatId))];
        }
        pendingTimer := Some(captured);
      }
    }

    /** The typing timer fires: `stop typing` is emitted and the flag cleared only if the
        callback's captured `isTyping` was true. */
    method TypingTimerFires()
      requires Valid() && pendingTimer.Some?
      modifies this
      ensures Valid()
      ensures pendingTimer == None
      ensures old(pendingTimer.value) ==> !isTyping && emitted == old(emitted) + [Emission(socketRef.value, StopTyping(chatId))]
      ensures !old(pendingTimer.value) ==> isTyping == old(isTyping) && emitted == old(emitted)
      ensures message == old(message) && messages == old(messages) && isUserOnline == old(isUserOnline)
      ensures userTyping == old(userTyping) && listening == old(listening)
      ensures sendsPending == old(sendsPending) && uploadsPending == old(uploadsPending)
    {
      var captured := pendingTimer.value;
      pendingTimer := None;
      if socketRef.Some? && captured {
        emitted := emitted + [Emission(socketRef.value, StopTyping(chatId))];
        isTyping := false;
      }
    }

    /** `sendMessage()`: nothing happens for a blank trimmed message or a falsy chatId; otherwise
        `stop typing` is emitted (with a socket) and the trimmed text is sent as a 'text' message. */
    method SendMessage() returns (q: Option<Query>)
      requires Valid()
      modifies this
      ensures Valid()
      ensures Trim(old(message)) == "" || !Common.Truthy(chatId) ==>
        q == None && emitted == old(emitted) && sendsPending == old(sendsPending)
      ensures Trim(old(message)) != "" && Common.Truthy(chatId) ==>
        && q == Some(Query("messages/" + chatId.value, POST,
             Json(Obj(map["content" := Str(Trim(old(message))), "messageType" := Str("text")]))))
        && emitted == old(emitted) + (if socketRef.Some? then [Emission(socketRef.value, StopTyping(chatId))] else [])
        && sendsPending == old(sendsPending) + 1
      ensures message == old(message) && messages == old(messages) && isTyping == old(isTyping)
      ensures isUserOnline == old(isUserOnline) && userTyping == old(userTyping) && listening == old(listening)
      ensures pendingTimer == old(pendingTimer) && uploadsPending == old(uploadsPending)
    {
      var text := Trim(message);
      if text == "" || !Common.Truthy(chatId) {
        return None;
      }
      if socketRef.Some? {
        emitted := emitted + [Emission(socketRef.value, StopTyping(chatId))];
      }
      var query := TextMessageQuery(chatId.value, text);
      q := Some(query);
      sendsPending := sendsPending + 1;
    }

    /** A `sendMessage` request settles: on status 'success' the new message is emitted (with a
        socket) and the input and typing flag are cleared; on any other status or an exception
        nothing but the pending count changes. */
    method OnSendSettled(outcome: CreateOutcome)
      requires Valid() && sendsPending > 0
      modifies this
      ensures Valid()
      ensures sendsPending == old(sendsPending) - 1
      ensures outcome.Resolved? && outcome.status == "success" ==>
        && message == "" && !isTyping
        && emitted == old(emitted) + (if socketRef.Some? then [Emission(socketRef.value, NewMessage(outcome.message))] else [])
      ensures !(outcome.Resolved? && outcome.status == "success") ==>
        message == old(message) && isTyping == old(isTyping) && emitted == old(emitted)
      ensures messages == old(messages) && isUserOnline == old(isUserOnline) && userTyping == old(userTyping)
      ensures listening == old(listening) && pendingTimer == old(pendingTimer) && uploadsPending == old(uploadsPending)
    {
      sendsPending := sendsPending - 1;
      if outcome.Resolved? && outcome.status == "success" {
        if socketRef.Some? {
          emitted := emitted + [Emission(socketRef.value, NewMessage(outcome.message))];
        }
        message := "";
        isTyping := false;
      }
    }

    /** `handleFileUpload(file)`: nothing happens for a falsy chatId; otherwise the file is sent as
        a multipart message holding its kind and then the file object. */
    method HandleFileUpload(file: FileData) returns (q: Option<Query>)
      requires Valid()
      modifies this
      ensures Valid()
      ensures !Common.Truthy(chatId) ==> q == None && uploadsPending == old(uploadsPending)
      ensures Common.Truthy(chatId) ==>
        && q == Some(Query("messages/" + chatId.value, POST,
             Form([FormPart("messageType", Str(UploadKind(file.mimeType))), FormPart("file", FileValue(file))])))
        && uploadsPending == old(uploadsPending) + 1
      ensures message == old(message) && messages == old(messages) && isTyping == old(isTyping) && emitted == old(emitted)
      ensures isUserOnline == old(isUserOnline) && userTyping == old(userTyping) && listening == old(listening)
      ensures pendingTimer == old(pendingTimer) && sendsPending == old(sendsPending)
    {
      if !Common.Truthy(chatId) {
        return None;
      }
      var query := UploadQuery(chatId.value, file);
      q := Some(query);
      uploadsPending := uploadsPending + 1;
    }

    /** An upload settles: on status 'success' the new message is emitted (with a socket); the
        input and typing flag are left alone either way. */
    method OnUploadSettled(outcome: CreateOutcome)
      requires Valid() && uploadsPending > 0
      modifies this
      ensures Valid()
      ensures uploadsPending == old(uploadsPending) - 1
      ensures emitted == old(emitted) +
        (if outcome.Resolved? && outcome.status == "success" && socketRef.Some?
         then [Emission(socketRef.value, NewMessage(outcome.message))] else [])
      ensures message == old(message) && messages == old(messages) && isTyping == old(isTyping)
      ensures isUserOnline == old(isUserOnline) && userTyping == old(userTyping) && listening == old(listening)
      ensures pendingTimer == old(pendingTimer) && sendsPending == old(sendsPending)
    {
      uploadsPending := uploadsPending - 1;
      if outcome.Resolved? && outcome.status == "success" && socketRef.Some? {
        emitted := emitted + [Emission(socketRef.value, NewMessage(outcome.message))];
      }
    }

    /** Unmount: the listeners are removed; the pending typing timer is not cleared. */
    method Cleanup()
      requires Valid()
      modifies this
      ensures Valid()
      ensures !listening
      ensures message == old(message) && messages == old(messages) && isTyping == old(isTyping) && emitted == old(emitted)
      ensures isUserOnline == old(isUserOnline) && userTyping == old(userTyping) && pendingTimer == old(pendingTimer)
      ensures sendsPending == old(sendsPending) && uploadsPending == old(uploadsPending)
    {
      listening := false;
    }
  }

  // ---------------------------------------------------------------------------
  // The typing debounce, run end to end on a fresh screen

  /** One keystroke and its timer: `typing` is emitted, but the timer's callback captured
      `isTyping == false`, so `stop typing` is never sent and the flag stays on. */
  method OneKeystroke(chatId: Option<string>, peerId: Option<string>, me: UserRecord, text: string)
    returns (log: seq<Emission>, stillTyping: bool)
    ensures log == [Emission(0, Setup(me)), Emission(0, JoinChat(chatId)), Emission(0, CheckOnline(peerId)),
                    Emission(0, Typing(chatId))]
    ensures stillTyping
  {
    var screen := new Chat(chatId, peerId, me, Some(0));
    screen.HandleTyping(text);
    screen.TypingTimerFires();
    log := screen.emitted;
    stillTyping := screen.isTyping;
  }

  /** Two keystrokes, then the second one's timer: `typing` is emitted once, and only the second
      callback, which captured `isTyping == true`, sends `stop typing`. */
  method TwoKeystrokes(chatId: Option<string>, peerId: Option<string>, me: UserRecord, first: string, second: string)
    returns (log: seq<Emission>, stillTyping: bool)
    ensures log == [Emission(0, Setup(me)), Emission(0, JoinChat(chatId)), Emission(0, CheckOnline(peerId)),
                    Emission(0, Typing(chatId)), Emission(0, StopTyping(chatId))]
    ensures !stillTyping
  {
    var screen := new Chat(chatId, peerId, me, Some(0));
    screen.HandleTyping(first);
    screen.HandleTyping(second);
    screen.TypingTimerFires();
    log := screen.emitted;
    stillTyping := screen.isTyping;
  }
}
