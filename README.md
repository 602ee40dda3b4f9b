# Chat app client core, modelled in Dafny

This project models the logic of a React Native chat client: the screens that hold
conversation state, the request builders of its RTK Query API slices, the module-level
socket.io client, and the Firebase/notifee notification handling. It proves properties
about that model. Every core file becomes one Dafny module:

| module | file |
|---|---|
| `Socket` | `src/socket/index.js` |
| `ChatScreen` | `src/views/Chat/components/Chat.js` |
| `CreateGroup` | `src/views/Chat/components/CreateGroup.js` |
| `GroupInfo` | `src/views/Chat/components/GroupInfo.js` |
| `Profile` | `src/views/Profile/index.js` |
| `Splash` | `src/views/Splash/index.js` |
| `NotificationHandlers` | `src/firebase/NotificationHandlers.js` |
| `NotificationProvider` | `src/firebase/NotificationProvider.js` |
| `NotificationService` | `src/firebase/NotificationService.js` |
| `ChatApi`, `MessageApi`, `UserApi` | `src/redux/api/chatApiSlice.js`, `messageAPISlice.js`, `userApiSlice.js` |
| `Utils` | `src/utils/index.js` |

Four modules hold shared vocabulary:
- `Common`: optional values, `||` on strings, `trim`, ASCII case mapping, `indexOf`,
  `includes`, first-occurrence `replace`, `filter` and decimal rendering.
- `JsValue`: JavaScript objects as the request builders see them.
- `ApiSlice`: the `{url, method, body}` request shape and the cache tags.
- `Auth`: the signed-in user as the store holds it.

How the model is built:
- Pure expressions (request builders, filters, fallbacks, the date text) are functions.
- Screens whose state changes through setters are classes whose methods state the whole new
  state.
- Each awaited mutation of a screen is split into two steps. The call makes the request and
  counts it as pending. A separate "settled" method takes the outcome.
- The notification handler awaits twice (the displayed-notification list and the avatar
  download) before it displays. Its run is split into `Lookup`, which reads a snapshot of the
  tray, and `Display`. `HandleNotification` is a run with nothing in between; runs that
  overlap are modelled by `OverlappingRuns`.
- Each timer is a step that fires.
- The socket's `emit` calls, navigations, toasts and alerts are recorded as sequences.

Closures capture values the way the source does:
- The typing timer in `Chat.js` sees the `isTyping` of the keystroke that armed it.
- An old socket client's `connect` handler, and every AppState listener, emit on the CURRENT
  module socket with the user they captured.
- The splash timer and the provider's listeners see the user of the mounting render.
- A profile submit merges into the user of the render that submitted it.

What the code does, where a reader might expect otherwise:
- **Socket lifecycle.** Each `initiateSocket` in `src/socket/index.js` creates a new client, leaves the
  previous one running and adds another AppState listener that is never removed. After two
  sessions, one foreground event therefore emits `setup` twice (`TwoSessionsBothSetUp`).
- **Notification grouping key.** Notifications are grouped by `chatData.userId`, so a group
  chat's payloads group by the user id they carry.
- **Malformed payloads.** A malformed `chatData` is not treated as absent. `JSON.parse`
  throws: the notification handler catches it and shows nothing. An unparseable chatData
  already on display also makes the lookup throw.
- **Cold-start navigation.** A cold-start tap arms a 1000 ms timer that navigates, and
  unmounting does not cancel it.
- **Group endpoints.** The group screen passes `{chatId, chatName}` and `{chatId, userId}`,
  but the group endpoints read their body from `arg.data`. The rename, add and remove
  requests therefore carry an undefined body.

## Model

| member | source | states |
|---|---|---|
| `Common.OrElse` | src/firebase/NotificationHandlers.js:14-17 | `a \|\| b` on an optional string: `a` when present and non-empty, else `b` |
| `Common.TrimStart` | src/views/Chat/components/Chat.js:152 | the result is a suffix of the input, only whitespace was removed, and it does not start with whitespace |
| `Common.TrimEnd` | src/views/Chat/components/Chat.js:152 | the result is a prefix of the input, only whitespace was removed, and it does not end with whitespace |
| `Common.BlankIff` | src/views/Chat/components/CreateGroup.js:51 | `!s.trim()` holds exactly when every character of `s` is whitespace |
| `Common.TrimIsInfix` | src/views/Chat/components/Chat.js:163 | the trimmed text is a contiguous piece of the input, with whitespace removed only at the two ends |
| `Common.ToLower` | src/views/Chat/components/CreateGroup.js:34 | same length; each character is lower-cased on its own |
| `Common.ToUpperChar` | src/firebase/NotificationHandlers.js:32-34 | each lower-case ASCII letter becomes the same letter in upper case (same position in the alphabet); every other character is unchanged |
| `Common.IndexOf` | src/firebase/NotificationService.js:17 | the first position where the pattern occurs, with no earlier occurrence; None exactly when it occurs nowhere |
| `Common.EmptyQueryMatchesAll` | src/views/Chat/components/CreateGroup.js:33-35 | an empty search query matches every name |
| `Common.Filter` | src/views/Chat/components/CreateGroup.js:47 | the result keeps exactly the elements that satisfy the predicate, and is no longer than the input |
| `Common.FilterAppend` | src/views/Chat/components/CreateGroup.js:47 | filtering distributes over concatenation, so it keeps the input order |
| `Common.FilterAll` | src/views/Chat/components/CreateGroup.js:33-35 | a filter that keeps every element returns the sequence unchanged |
| `Common.NatToString` | src/utils/index.js:23-24 | `String(n)` gives at least one decimal digit with no leading zero; it has one digit exactly when `n < 10` |
| `Common.NatToStringRoundTrip` | src/utils/index.js:23-24 | reading the decimal text back gives `n` |
| `Common.IntToString` | src/utils/index.js:25-26 | `${year}` is non-empty and starts with '-' exactly for a negative year |
| `Common.PadStart2` | src/utils/index.js:23-24 | `padStart(2, '0')` gives the input preceded by zeros up to length 2 |
| `Common.Pad2RoundTrip` | src/utils/index.js:23-24 | a number below 100 renders, zero-padded, as exactly two digits that read back to it |
| `JsValue.Get` | src/redux/api/messageAPISlice.js:8 | a property read yields the stored value, and undefined for a missing property or a non-object |
| `JsValue.Without` | src/redux/api/messageAPISlice.js:6 | the rest object of `{chatId, ...rest}` lacks the key and agrees with the input on every other key |
| `JsValue.TemplateString` | src/redux/api/messageAPISlice.js:20 | a string is substituted as itself; undefined is spelled 'undefined' |
| `MessageApi.CreateRefreshesHistory` | src/redux/api/messageAPISlice.js:33-43 | creating a message invalidates a tag that the message history provides |
| `MessageApi.OptionalPart` | src/redux/api/messageAPISlice.js:11-16 | a form part is appended exactly when its value is truthy |
| `MessageApi.CreateMessageQuery` | src/redux/api/messageAPISlice.js:6-32 | POST `messages/{chatId}`; with a truthy file, a form holding messageType and content if truthy, then the file; otherwise the argument without chatId |
| `MessageApi.GetMessagesQuery` | src/redux/api/messageAPISlice.js:36-43 | a GET without a body to `messages/{chatId}`, the same URL `createMessage` posts to; a string chatId appears in it as itself |
| `MessageApi.FileIsLastPart` | src/redux/api/messageAPISlice.js:8-24 | a file message's form has one to three parts, ends with the file and never carries chatId |
| `UserApi.GetAllUsersQuery` | src/redux/api/userApiSlice.js:5-12 | GET `users` without a body |
| `UserApi.UpdateUserQuery` | src/redux/api/userApiSlice.js:14-41 | always PUT `users/updateMe`; with a truthy avatar, a form of username (if truthy) then avatar; otherwise the argument unchanged |
| `ChatApi.QueryOf` | src/redux/api/chatApiSlice.js:5-78 | exactly the mutations use a verb other than GET; per endpoint the verb and URL; create endpoints send the argument itself, the reads send no body, and the group endpoints send only `arg.data`, with chatId only in the URL |
| `ChatApi.MutationsRefreshChatList` | src/redux/api/chatApiSlice.js:13-77 | every mutation, and only a mutation, invalidates `Chats`, which the chat list provides; no mutation refreshes group info |
| `ChatApi.MessageRefreshesChatList` | src/redux/api/chatApiSlice.js:23 | sending a message also refreshes the chat list, which provides `Messages` |
| `ChatApi.TopLevelFieldsAreDropped` | src/redux/api/chatApiSlice.js:39-44 | an argument carrying its fields beside chatId, not under `data`, yields an undefined body |
| `NotificationService.ProcessAvatarImage` | src/firebase/NotificationService.js:9-28 | a falsy URL gives null without a download; otherwise the download of the cropped URL, with null on any failure |
| `NotificationService.UrlWithoutUploadUnchanged` | src/firebase/NotificationService.js:17 | a URL without `/upload/` is downloaded unchanged |
| `NotificationService.CropInsertedAfterFirstUpload` | src/firebase/NotificationService.js:17 | the crop parameters are inserted after the first `/upload/` only, and the rest of the URL is kept |
| `NotificationService.CroppedUrlKeepsPrefix` | src/firebase/NotificationService.js:17 | everything up to and including the first `/upload/` is kept |
| `NotificationHandlers.ParseChatData` | src/firebase/NotificationHandlers.js:9-11 | malformed chatData throws; missing or empty chatData gives null; otherwise the parsed object |
| `NotificationHandlers.ChatTitle` | src/firebase/NotificationHandlers.js:14-17 | chatName, else the notification title, else 'Unknown Sender'; never empty |
| `NotificationHandlers.MessageText` | src/firebase/NotificationHandlers.js:66-69 | the data body, else the notification body, else 'New message'; never empty |
| `NotificationHandlers.FindFrom` | src/firebase/NotificationHandlers.js:23-27 | the first displayed notification whose chatData has the payload's userId; earlier ones were skipped without throwing; a malformed one reached first throws |
| `NotificationHandlers.ExistingMessages` | src/firebase/NotificationHandlers.js:42-43 | reading the old messages throws exactly when the notification has no style |
| `NotificationHandlers.AvatarIcon` | src/firebase/NotificationHandlers.js:30-38 | a group chat downloads its generated initial avatar; otherwise a truthy senderAvatar is downloaded; otherwise there is none |
| `NotificationHandlers.IconFor` | src/firebase/NotificationHandlers.js:52-54 | the launcher icon exactly when there is no downloaded image |
| `NotificationHandlers.Displayed` | src/firebase/NotificationHandlers.js:45-46 | displaying keeps the notification ids distinct when the fresh id is unused |
| `NotificationHandlers.NotificationTray.Lookup` | src/firebase/NotificationHandlers.js:4-37 | the part of a run before it displays: the request computed from a snapshot of the tray, changing nothing; a request for an existing id names an id on display |
| `NotificationHandlers.NotificationTray.Display` | src/firebase/NotificationHandlers.js:39-111 | the `displayNotification` that ends a run: the tray becomes Displayed of the request and ids stay distinct |
| `NotificationHandlers.NotificationTray.HandleNotification` | src/firebase/NotificationHandlers.js:4-119 | a run with nothing between its lookup and its display: the tray becomes the result of displaying the computed request, or is unchanged when the handler caught an exception; ids stay distinct |
| `NotificationHandlers.DisplayedReplacesInPlace` | src/firebase/NotificationHandlers.js:45-46 | re-displaying a shown id replaces that notification in place and leaves every other one as it is |
| `NotificationHandlers.MalformedPayloadShowsNothing` | src/firebase/NotificationHandlers.js:9-11 | a payload whose chatData cannot be parsed displays nothing |
| `NotificationHandlers.MatchAppendsOneMessage` | src/firebase/NotificationHandlers.js:40-79 | a payload matching a shown notification re-displays it under the same id, with exactly one message appended; the others are untouched |
| `NotificationHandlers.NoMatchCreatesOne` | src/firebase/NotificationHandlers.js:80-115 | a payload matching nothing adds one notification under a fresh id, holding one message |
| `NotificationHandlers.DisplayedContentShape` | src/firebase/NotificationHandlers.js:47-62 | the title is never empty, so the person's name is the title; both icons fall back to the launcher icon together |
| `NotificationHandlers.Arrivals` | src/firebase/NotificationHandlers.js:65-71 | the k-th arrival is the text and time of the k-th payload |
| `NotificationHandlers.FirstPayloadCreates` | src/firebase/NotificationHandlers.js:80-115 | the first payload for a user creates a one-message notification keyed by that user |
| `NotificationHandlers.NextPayloadMerges` | src/firebase/NotificationHandlers.js:40-79 | a further payload for the same user merges into the one notification on display |
| `NotificationHandlers.SameUserPayloadsGroup` | src/firebase/NotificationHandlers.js:23-115 | payloads for one user, arriving while nothing is on display and each handled to completion before the next arrives, end as ONE notification under the first id, holding every message in arrival order |
| `NotificationHandlers.OverlappingRuns` | src/firebase/NotificationHandlers.js:20-111 | two runs that both look the tray up before either displays: the tray becomes the first request displayed and then the second, each computed from the same snapshot with that run's own avatar download |
| `NotificationHandlers.DisplayKeepsOtherIds` | src/firebase/NotificationHandlers.js:39-111 | a display adds no id but its own or the fresh one, so a later run's fresh id stays unused |
| `NotificationHandlers.OverlappingRunsDuplicate` | src/firebase/NotificationHandlers.js:20-111 | two overlapping runs for a sender with no notification on display both find nothing, so the sender ends with TWO notifications under the two fresh ids |
| `NotificationHandlers.OverlappingRunsLoseMessage` | src/firebase/NotificationHandlers.js:40-79 | two overlapping runs for a sender whose notification is on display both extend the same old message list under the same id; the second display replaces the first, so the notification holds the old messages plus the second message only, and the first message is lost |
| `Auth.CurrentUserId` | src/views/Profile/index.js:87 | with no signed-in user record there is no id; otherwise the id is exactly that record's `_id`, present or not |
| `Socket.SocketModule.constructor` | src/socket/index.js:6 | no socket before the first `initiateSocket` |
| `Socket.SocketModule.InitiateSocket` | src/socket/index.js:8-40 | a new unconnected client becomes the module socket; older clients are kept; one more AppState listener is registered |
| `Socket.SocketModule.OnConnect` | src/socket/index.js:16-19 | a client's `connect` marks it connected and emits `setup` with its captured user on the CURRENT module socket |
| `Socket.SocketModule.OnTransportClose` | src/socket/index.js:29 | a dropped transport clears that client's connected flag and nothing else |
| `Socket.SocketModule.OnAppStateChange` | src/socket/index.js:26-37 | every listener runs against the current socket: on 'active' while disconnected, a `connect()` and a `setup` per listener; on background or inactive, `app background` per listener; otherwise nothing |
| `Socket.SocketModule.DisconnectSocket` | src/socket/index.js:42-46 | disconnects the current socket; a no-op before any socket exists |
| `Socket.SocketModule.GetSocket` | src/socket/index.js:48 | the latest client created, undefined before the first |
| `Socket.ForegroundReconnect` | src/socket/index.js:16-32 | one session coming to the foreground disconnected calls `connect()` once and emits `setup` twice: from the listener and from the connect handler |
| `Socket.ActiveEmitsSetupPerListener` | src/socket/index.js:27-32 | on 'active' while disconnected, the k-th emission is `setup` with the k-th listener's user, on the current socket |
| `Socket.ActiveConnectedIsSilent` | src/socket/index.js:29 | on 'active' while connected nothing is emitted |
| `Socket.BackgroundEmitsPerListener` | src/socket/index.js:33-36 | on background or inactive each listener emits `app background`, connected or not |
| `Socket.OtherStatesAreSilent` | src/socket/index.js:26-37 | any other app state emits nothing |
| `Socket.TwoSessionsBothSetUp` | src/socket/index.js:8-37 | after two `initiateSocket` calls, one foreground event emits `setup` with BOTH users on the second socket |
| `ChatScreen.InsertionPoint` | src/views/Chat/components/Chat.js:77-81 | the new message goes after every message not older than it; everything after it is older |
| `ChatScreen.InsertNewestFirst` | src/views/Chat/components/Chat.js:77-81 | the list with the message placed at its insertion point, as a multiset the old list plus the message |
| `ChatScreen.InsertKeepsOrder` | src/views/Chat/components/Chat.js:78-80 | inserting into a newest-first list keeps it newest-first |
| `ChatScreen.InsertIsStable` | src/views/Chat/components/Chat.js:78-80 | messages with equal timestamps keep their arrival order |
| `ChatScreen.SortNewestFirst` | src/views/Chat/components/Chat.js:115-117 | the sort is newest-first and a permutation of its input |
| `ChatScreen.SortedIsFixpoint` | src/views/Chat/components/Chat.js:115-117 | sorting an already newest-first list leaves it unchanged |
| `ChatScreen.AppendThenSortIsInsert` | src/views/Chat/components/Chat.js:77-81 | appending a message to a sorted list and re-sorting is inserting it |
| `ChatScreen.UploadKind` | src/views/Chat/components/Chat.js:189-194 | 'document' exactly for a PDF, 'image' for anything else |
| `ChatScreen.FileValue` | src/views/Chat/components/Chat.js:195-199 | the uri as given; the type defaults to 'image/jpeg'; the name defaults to 'document.pdf' or 'image.jpg' by kind |
| `ChatScreen.UploadDefaults` | src/views/Chat/components/Chat.js:189-199 | a nameless PDF is a document named 'document.pdf'; any other nameless file is an image named 'image.jpg' |
| `ChatScreen.TextMessageQuery` | src/views/Chat/components/Chat.js:161-165 | the text message posts content and messageType 'text' as JSON to `messages/{chatId}`, without chatId in the body |
| `ChatScreen.UploadQuery` | src/views/Chat/components/Chat.js:192-200 | an upload posts a form holding the kind and then the file object, with no content part |
| `ChatScreen.Chat.constructor` | src/views/Chat/components/Chat.js:49-92 | with a socket, mount emits `setup`, `join chat` and `check online` in that order and listens; without one, nothing |
| `ChatScreen.Chat.OnMessageReceived` | src/views/Chat/components/Chat.js:72-83 | a message for this chat from someone else is inserted newest-first, adding one; any other message changes nothing |
| `ChatScreen.Chat.OnHistoryLoaded` | src/views/Chat/components/Chat.js:112-120 | loaded history replaces the list, sorted, as a permutation; without data the list is kept |
| `ChatScreen.Chat.OnPresence` | src/views/Chat/components/Chat.js:59-69 | the online flag follows only events about the chat peer |
| `ChatScreen.Chat.OnPeerTyping` | src/views/Chat/components/Chat.js:86-87 | the peer-typing flag follows `typing` and `stop typing` while listening |
| `ChatScreen.Chat.HandleTyping` | src/views/Chat/components/Chat.js:123-148 | the input takes the text; `typing` is emitted only on the not-typing to typing edge; the new timer captures the old `isTyping` |
| `ChatScreen.Chat.TypingTimerFires` | src/views/Chat/components/Chat.js:139-144 | `stop typing` is emitted and the flag cleared only when the captured `isTyping` was true |
| `ChatScreen.Chat.SendMessage` | src/views/Chat/components/Chat.js:151-165 | a blank trimmed message or missing chatId sends nothing; otherwise `stop typing`, then the trimmed text as a request |
| `ChatScreen.Chat.OnSendSettled` | src/views/Chat/components/Chat.js:167-180 | on 'success' the new message is emitted and the input and typing flag cleared; otherwise nothing visible changes |
| `ChatScreen.Chat.HandleFileUpload` | src/views/Chat/components/Chat.js:184-200 | a missing chatId sends nothing; otherwise the upload request |
| `ChatScreen.Chat.OnUploadSettled` | src/views/Chat/components/Chat.js:202-212 | on 'success' the new message is emitted; the input is left alone |
| `ChatScreen.Chat.Cleanup` | src/views/Chat/components/Chat.js:95-103 | the listeners are removed; the typing timer is not cleared |
| `ChatScreen.OneKeystroke` | src/views/Chat/components/Chat.js:123-148 | one keystroke emits `typing`, and its timer never sends `stop typing`, so the flag stays on |
| `ChatScreen.TwoKeystrokes` | src/views/Chat/components/Chat.js:123-148 | two keystrokes emit `typing` once, and the second timer sends `stop typing` and clears the flag |
| `CreateGroup.SearchResults` | src/views/Chat/components/CreateGroup.js:31-38 | with loaded users, exactly those whose name contains the query case-insensitively; without, the previous list |
| `CreateGroup.EmptySearchListsEveryone` | src/views/Chat/components/CreateGroup.js:31-38 | an empty query lists every loaded user, in order |
| `CreateGroup.AddSelection` | src/views/Chat/components/CreateGroup.js:40-44 | the user is appended unless its id is already selected; ids stay distinct |
| `CreateGroup.SelectIsIdempotent` | src/views/Chat/components/CreateGroup.js:40-44 | selecting the same user twice is selecting once |
| `CreateGroup.RemoveSelection` | src/views/Chat/components/CreateGroup.js:46-48 | exactly the users with another id stay; none with that id is left |
| `CreateGroup.RemoveUndoesAdd` | src/views/Chat/components/CreateGroup.js:40-48 | removing a just-added user restores the selection exactly |
| `CreateGroup.RowFor` | src/views/Chat/components/CreateGroup.js:101-121 | a row is disabled, highlighted and checked exactly when its user's id is selected |
| `CreateGroup.DisabledRowsCannotSelect` | src/views/Chat/components/CreateGroup.js:40-44 | pressing an enabled row appends exactly its user and disables that row from then on; a disabled row's press would change nothing |
| `CreateGroup.ValidateGroup` | src/views/Chat/components/CreateGroup.js:50-72 | a blank title is rejected first, then fewer than two members; otherwise the trimmed non-empty title and the members pass, to be logged |
| `CreateGroup.FilterKeepsDistinct` | src/views/Chat/components/CreateGroup.js:47 | removing users keeps selected ids distinct |
| `CreateGroup.CreateGroupScreen.constructor` | src/views/Chat/components/CreateGroup.js:22-25 | an empty query, no selection, no results and an empty title |
| `CreateGroup.CreateGroupScreen.OnUsersLoaded` | src/views/Chat/components/CreateGroup.js:31-38 | the results are recomputed for the loaded users |
| `CreateGroup.CreateGroupScreen.SetSearchQuery` | src/views/Chat/components/CreateGroup.js:31-38 | the results are recomputed for the new query |
| `CreateGroup.CreateGroupScreen.SetGroupTitle` | src/views/Chat/components/CreateGroup.js:190 | only the title changes |
| `CreateGroup.CreateGroupScreen.HandleUserSelect` | src/views/Chat/components/CreateGroup.js:40-44 | the selection becomes AddSelection of the old one; ids stay distinct |
| `CreateGroup.CreateGroupScreen.HandleUserRemove` | src/views/Chat/components/CreateGroup.js:46-48 | the selection becomes RemoveSelection of the old one; ids stay distinct |
| `CreateGroup.CreateGroupScreen.HandleCreateGroup` | src/views/Chat/components/CreateGroup.js:50-72 | a rejection shows its message as a toast; a group that passes is only logged, with its trimmed title and members, and no request is made |
| `GroupInfo.AdminMeansSameId` | src/views/Chat/components/GroupInfo.js:44 | the viewer is admin exactly when the chat names an admin with the viewer's id; with neither known, `undefined === undefined` makes anyone admin |
| `GroupInfo.AddCandidates` | src/views/Chat/components/GroupInfo.js:88-93 | users whose name matches and who are not members; none while users are not loaded |
| `GroupInfo.CandidatesAreOutsiders` | src/views/Chat/components/GroupInfo.js:88-93 | no candidate is a member; before the chat loads only the name filter applies |
| `GroupInfo.ControlsFor` | src/views/Chat/components/GroupInfo.js:107-177 | the pencil shows exactly for the admin while the name is not being edited, the input and Save exactly while it is; the add button shows exactly for the admin; each member row has a remove button exactly when the viewer is admin and the row is not the admin |
| `GroupInfo.ControlsAreAdminOnly` | src/views/Chat/components/GroupInfo.js:125-177 | a non-admin sees no admin control; the pencil and Save are never shown together; the admin's own row has no remove button |
| `GroupInfo.MemberRequest` | src/views/Chat/components/GroupInfo.js:63-85 | add POSTs to `chats/group/{id}/add`, remove DELETEs `chats/group/{id}`, both with an undefined body |
| `GroupInfo.RenameRequest` | src/views/Chat/components/GroupInfo.js:47-55 | the rename PUTs `chats/group/{id}` with an undefined body, so the new name is not sent |
| `GroupInfo.GroupInfoScreen.constructor` | src/views/Chat/components/GroupInfo.js:29-34 | not editing, an empty name, the add modal closed and an empty query |
| `GroupInfo.GroupInfoScreen.Candidates` | src/views/Chat/components/GroupInfo.js:88-93 | every listed candidate matches the query and is not a member |
| `GroupInfo.GroupInfoScreen.OnGroupInfoLoaded` | src/views/Chat/components/GroupInfo.js:37-43 | only the chat changes |
| `GroupInfo.GroupInfoScreen.OnUsersLoaded` | src/views/Chat/components/GroupInfo.js:41 | only the user list changes |
| `GroupInfo.GroupInfoScreen.SetSearchQuery` | src/views/Chat/components/GroupInfo.js:198 | only the query changes |
| `GroupInfo.GroupInfoScreen.StartEditing` | src/views/Chat/components/GroupInfo.js:107-130 | for the admin while not editing, editing opens with the current name (possibly undefined); otherwise, where no pencil is rendered, nothing |
| `GroupInfo.GroupInfoScreen.SetNewGroupName` | src/views/Chat/components/GroupInfo.js:112 | only the name input changes |
| `GroupInfo.GroupInfoScreen.HandleUpdateName` | src/views/Chat/components/GroupInfo.js:47-55 | a blank or undefined name sends nothing; otherwise the rename request |
| `GroupInfo.GroupInfoScreen.OnUpdateSettled` | src/views/Chat/components/GroupInfo.js:56-59 | success closes editing; failure shows the alert |
| `GroupInfo.GroupInfoScreen.OpenAddMembers` | src/views/Chat/components/GroupInfo.js:156-159 | the modal opens only for the admin |
| `GroupInfo.GroupInfoScreen.CloseAddMembers` | src/views/Chat/components/GroupInfo.js:189 | the modal closes |
| `GroupInfo.GroupInfoScreen.HandleAddMember` | src/views/Chat/components/GroupInfo.js:63-68 | the add request for that user |
| `GroupInfo.GroupInfoScreen.OnAddSettled` | src/views/Chat/components/GroupInfo.js:69-72 | success closes the modal; failure shows the alert |
| `GroupInfo.GroupInfoScreen.HandleRemoveMember` | src/views/Chat/components/GroupInfo.js:76-81 | the remove request for that user |
| `GroupInfo.GroupInfoScreen.OnRemoveSettled` | src/views/Chat/components/GroupInfo.js:82-84 | only a failure is visible, as an alert |
| `Profile.InitialForm` | src/views/Profile/index.js:30-34 | each field is the user's value when truthy, else '' |
| `Profile.AvatarFile` | src/views/Profile/index.js:102-106 | the selected uri with type 'image/jpeg' and name 'profile-image.jpg' |
| `Profile.UpdatePayload` | src/views/Profile/index.js:96-107 | always the username; the avatar file is added exactly when an image was selected |
| `Profile.UpdateRequest` | src/views/Profile/index.js:96-109 | with an image, a form of the name (if non-empty) then the avatar; otherwise JSON `{username}`; always PUT `users/updateMe` |
| `Profile.MergeUser` | src/views/Profile/index.js:112-122 | username and avatar come from the answer; every other field of the user, of `data` and of the top level is kept |
| `Profile.MergeIsOverride` | src/views/Profile/index.js:112-122 | merging the current values changes nothing; a second merge overrides the first; the id is kept |
| `Profile.ProfileScreen.constructor` | src/views/Profile/index.js:28-35 | the form starts as InitialForm of the user, with no image selected |
| `Profile.ProfileScreen.SetName` | src/views/Profile/index.js:182-184 | only the form's name changes |
| `Profile.ProfileScreen.HandleImagePick` | src/views/Profile/index.js:59-81 | the first asset's uri becomes the selected image and the form's avatar; cancel, error, exception or no asset change nothing |
| `Profile.ProfileScreen.HandleSubmit` | src/views/Profile/index.js:86-109 | without a user id, an error toast and no request; otherwise the update request, with the current user captured |
| `Profile.ProfileScreen.OnSubmitSettled` | src/views/Profile/index.js:109-139 | on 'success' the merged captured user is dispatched and stored, then a success toast and go back; a failure shows the error toast; another status does nothing |
| `Profile.StoreAndStorageAgree` | src/views/Profile/index.js:112-125 | the stored user keeps the captured id and token and carries the answered username and avatar |
| `Splash.SplashTarget` | src/views/Splash/index.js:23 | 'Home' exactly when the user has a truthy token, else 'Login' |
| `Splash.SplashScreen.constructor` | src/views/Splash/index.js:14-17 | mount captures the user and arms the timer |
| `Splash.SplashScreen.TimerFires` | src/views/Splash/index.js:15-28 | an armed timer resets the stack to the one chosen route at index 0; a cleared one does nothing |
| `Splash.SplashScreen.Unmount` | src/views/Splash/index.js:19 | the timer is cleared |
| `Splash.MountAndWait` | src/views/Splash/index.js:14-28 | a mounted splash resets exactly once, to 'Home' for a user with a token |
| `Splash.MountAndLeave` | src/views/Splash/index.js:14-19 | unmounted before the timer fires, the splash never navigates |
| `Utils.DaysInMonth` | src/utils/index.js:9-10 | every month has 28 to 31 days |
| `Utils.PrevDay` | src/utils/index.js:9-10 | `setDate(getDate() - 1)` gives a valid date different from the input |
| `Utils.NextDay` | src/utils/index.js:9-10 | the following day, a valid date different from the input |
| `Utils.DayStepsRoundTrip` | src/utils/index.js:9-10 | the previous day of the next day, and the next day of the previous day, are the date itself |
| `Utils.DateText` | src/utils/index.js:22-26 | the `DD/MM/YYYY` text has at least seven characters |
| `Utils.DateTextRoundTrip` | src/utils/index.js:22-26 | the text holds two digits of day, '/', two digits of the 1-based month, '/', then the year; each reads back |
| `Utils.FormatLastSeen` | src/utils/index.js:1-27 | the same day gives the time text, checked first; the previous day gives 'Yesterday'; any other date gives its date text; an invalid date gives 'NaN/NaN/NaN' |
| `Utils.OlderDatesAreDates` | src/utils/index.js:21-26 | an older date's text is never 'Yesterday' or the invalid text, and its first two characters read back as the day |
| `Utils.RollOverExamples` | src/utils/index.js:9-10 | the day before March 1 is February 29 in a leap year and February 28 otherwise; the day before January 1 is December 31 |
| `NotificationProvider.NavigateToChat` | src/firebase/NotificationProvider.js:32-40 | always the 'Chat' route; userId is null for a group chat, else copied; chatId, isGroupChat and chatName are copied |
| `NotificationProvider.NavigationIdentifiesChat` | src/firebase/NotificationProvider.js:32-40 | payloads with different chat ids never navigate to the same place |
| `NotificationProvider.FcmUpdate` | src/firebase/NotificationProvider.js:15-24 | PATCH `users/update-fcm-token` with `{fcmToken}`, and the captured token as bearer, spelled 'undefined' when missing |
| `NotificationProvider.OpenedChat` | src/firebase/NotificationProvider.js:61-63 | a chat to navigate to exactly when chatData is present and parses |
| `NotificationProvider.Provider.constructor` | src/firebase/NotificationProvider.js:42-86 | the foreground listener is subscribed; nothing is navigated or pushed yet |
| `NotificationProvider.Provider.OnPermissionToken` | src/firebase/NotificationProvider.js:42-50 | a truthy permission token is pushed; otherwise nothing |
| `NotificationProvider.Provider.OnForegroundMessage` | src/firebase/NotificationProvider.js:56-59 | while subscribed, the payload goes to the notification handler; after unmount the tray is untouched |
| `NotificationProvider.Provider.OnBackgroundMessage` | src/firebase/NotificationProvider.js:83 | the background handler always runs the notification handler |
| `NotificationProvider.Provider.OnNotificationOpened` | src/firebase/NotificationProvider.js:61-66 | navigates at once exactly when chatData is present and parses, unmounted or not |
| `NotificationProvider.Provider.OnInitialNotification` | src/firebase/NotificationProvider.js:68-75 | a cold-start payload with chatData arms the timer and navigates nothing yet |
| `NotificationProvider.Provider.ColdStartTimerFires` | src/firebase/NotificationProvider.js:73 | the oldest armed timer navigates to its chat |
| `NotificationProvider.Provider.OnTokenRefresh` | src/firebase/NotificationProvider.js:77-81 | a refreshed token is pushed only when the captured user has a token |
| `NotificationProvider.Provider.Unmount` | src/firebase/NotificationProvider.js:85 | only the foreground listener is unsubscribed |
| `NotificationProvider.ColdStartAfterUnmount` | src/firebase/NotificationProvider.js:68-85 | unmounting before the second passes still navigates to the sender's chat |
| `NotificationProvider.SignedOutPushes` | src/firebase/NotificationProvider.js:15-81 | signed out, a token refresh pushes nothing, but the permission token is pushed with bearer 'undefined' |

## Left out

- I/O is a parameter or a recorded step:
  - the avatar download, base64 read and unlink are one function `fetch` yielding the text or None;
  - `Date.now()` is a parameter `now`;
  - notifee's generated notification id is a parameter `freshId`;
  - API responses, picker results and AsyncStorage success are outcome parameters of the "settled" methods.
- `createChannel` and `showLoginNotification` in `src/firebase/NotificationService.js`: only notifee calls with constant arguments.
- `toLocaleTimeString` output is an opaque parameter of `FormatLastSeen`.
- Utils.FormatLastSeen: the `yesterday` date is a second clock reading; the model takes it to be the same instant as `now`, so a call straddling midnight is not modelled.
- Utils.FormatLastSeen: `lastSeen` is given already split into a calendar day in local time. Timestamp parsing and time zones are not modelled.
- Message timestamps in the sort are integers; a `createdAt` that does not parse (NaN in the comparator) is not modelled.
- `toLowerCase`/`toUpperCase` map ASCII letters only; other Unicode case mappings are not modelled.
- JavaScript values: NaN and -0 are not modelled.
- User names are strings: `user.username.toLowerCase()` on a missing name would throw; that path is not modelled.
- `JSON.stringify` and the string kept in storage are modelled by storing the user value itself.
- Parsed `chatData` is always an object; a payload whose JSON is `null`, a number or an array is treated as malformed or absent.
- socket.io transport internals: the connection handshake, automatic reconnection, buffering of emits while disconnected.
- Socket.SocketModule.OnConnectError: only logs, so it has no contract.
- NotificationHandlers.NotificationTray.HandleNotification: each run is treated as finishing before the next payload is handled. Overlapping runs can duplicate a notification or lose a message; only two overlapping runs are modelled (`OverlappingRuns`, `OverlappingRunsDuplicate`, `OverlappingRunsLoseMessage`), not every interleaving of more.
- NotificationHandlers.OverlappingRuns: every run downloads the avatar to the same file, `${RNFS.CachesDirectoryPath}/temp_avatar.jpg` (`src/firebase/NotificationService.js:14-22`). Overlapping runs can read each other's image, or fail after the other run's unlink and fall back to the launcher icon. The model gives each run an independent download result and does not capture the swapped or missing avatar.
- NotificationHandlers.Displayed: notifee is taken to list an updated notification in place and a new one last. Only which of several matching notifications `find` picks depends on this order.
- NotificationHandlers.SameUserPayloadsGroup: holds only for runs that do not overlap. Neither the foreground listener nor the background handlers serialise the runs.
- Profile.UpdateOutcome: a successful update always carries `data.user`. A success response without it throws at `src/views/Profile/index.js:117-118`, and the screen shows the error toast; that path is not modelled.
- Profile.ProfileScreen.HandleSubmit: the model allows several submits in flight. The screen disables the button while `isLoading` (`src/views/Profile/index.js:204`), which the model does not capture.
- GroupInfo.GroupChat: a chat's `users` is always a list. A loaded chat without `users` makes `chat?.users.some` throw (`src/views/Chat/components/GroupInfo.js:92`); that path is not modelled.
- CreateGroup.CreateGroupScreen.HandleCreateGroup: a group that passes validation is only logged with `console.log`. The screen never calls `createGroupChat`, so no group is sent or created.
- The effect of `socket.off` in `Chat.js` on listeners that other screens registered for the same event names.
- `requestUserPermission` and `getGroupColor`/`getInitial` are imported from `src/utils` but not defined in `src/utils/index.js`. They are not part of this model. The permission call is taken to resolve to an optional token.
- ChatScreen.Chat.constructor: the chat screen's socket effect is modelled as running once, at mount. It depends on `[chatId, userId, currentUser.data.user]` (`src/views/Chat/components/Chat.js:92`, `:105-109`), so a newly dispatched user object (for example after the profile update) cleans up, re-registers the listeners and re-emits `setup`, `join chat` and `check online`; those re-runs are not modelled.
- The provider's effect re-running when `navigation` changes (a second set of listeners) is not modelled; it runs once at mount.
- Rendering, styles, keyboard listeners, the logout button, and the screens and files outside this core (login, sign-up, home, navigator, the stub chat screen, the base API slice).
