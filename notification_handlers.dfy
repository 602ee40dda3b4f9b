/** `handleNotification`: merges an incoming push payload into the notifications
    already on display. The displayed notifications are what notifee's
    `getDisplayedNotifications` returns, in that order; `displayNotification`
    replaces a notification whose id is already shown and adds one otherwise. */
module NotificationHandlers {
  import opened Common
  import NotificationService

  /** The JSON object carried as a string in `data.chatData`. */
  datatype ChatData = ChatData(
    userId: Option<string>,
    chatId: Option<string>,
    chatName: Option<string>,
    isGroupChat: Option<bool>)

  /** A `chatData` string property as `JSON.parse` sees it. `Absent` stands for a missing
      property and for the empty string, which are both falsy. */
  datatype ChatDataField = Absent | Malformed | Encoded(value: ChatData)

  datatype PushData = PushData(chatData: ChatDataField, senderAvatar: Option<string>, body: Option<string>)
  datatype PushNotification = PushNotification(title: Option<string>, body: Option<string>)
  datatype RemoteMessage = RemoteMessage(notification: Option<PushNotification>, data: Option<PushData>)

  /** One line of a MESSAGING-style notification. */
  datatype StyleMessage = StyleMessage(text: string, timestamp: int)
  datatype Person = Person(name: string, icon: string)
  /** The `android.style` of a displayed notification: none, a style without a message list
      (such as BIGTEXT), or MESSAGING with an optional message list. */
  datatype Style = NoStyle | OtherStyle | Messaging(person: Person, messages: Option<seq<StyleMessage>>)

  datatype Content = Content(
    title: string,
    chatData: ChatDataField,   // `data.chatData`, as JSON.stringify(chatData) stores it
    channelId: string,
    smallIcon: string,
    largeIcon: string,
    style: Style)

  datatype Notice = Notice(id: string, content: Content)

  /** An argument to `displayNotification`; `id` None means "let notifee pick one". */
  datatype DisplayRequest = DisplayRequest(id: Option<string>, content: Content)

  const ChannelId: string := "chat_messages"
  const LauncherIcon: string := "ic_launcher"

  // ---------------------------------------------------------------------------
  // The payload

  datatype Parse = ParseThrew | Parsed(chatData: Option<ChatData>)

  /** `remoteMessage.data?.chatData ? JSON.parse(remoteMessage.data.chatData) : null`. */
  function ParseChatData(m: RemoteMessage): (r: Parse)
    ensures r == ParseThrew <==> m.data.Some? && m.data.value.chatData == Malformed
    ensures r == Parsed(None) <==> m.data.None? || m.data.value.chatData == Absent
    ensures m.data.Some? && m.data.value.chatData.Encoded? ==> r == Parsed(Some(m.data.value.chatData.value))
  {
    if m.data.None? then Parsed(None)
    else match m.data.value.chatData
      case Absent => Parsed(None)
      case Malformed => ParseThrew
      case Encoded(cd) => Parsed(Some(cd))
  }

  /** `chatData?.isGroupChat || false`. */
  predicate IsGroupChat(cd: Option<ChatData>) {
    cd.Some? && cd.value.isGroupChat == Some(true)
  }

  function ChatNameOf(cd: Option<ChatData>): Option<string> {
    if cd.Some? then cd.value.chatName else None
  }

  function TitleOf(m: RemoteMessage): Option<string> {
    if m.notification.Some? then m.notification.value.title else None
  }

  /** `chatData?.chatName || remoteMessage.notification?.title || 'Unknown Sender'`. */
  function ChatTitle(cd: Option<ChatData>, m: RemoteMessage): (r: string)
    ensures r != ""
    ensures Truthy(ChatNameOf(cd)) ==> r == ChatNameOf(cd).value
    ensures !Truthy(ChatNameOf(cd)) && Truthy(TitleOf(m)) ==> r == TitleOf(m).value
    ensures !Truthy(ChatNameOf(cd)) && !Truthy(TitleOf(m)) ==> r == "Unknown Sender"
  {
    OrElse(ChatNameOf(cd), OrElse(TitleOf(m), "Unknown Sender"))
  }

  function DataBody(m: RemoteMessage): Option<string> {
    if m.data.Some? then m.data.value.body else None
  }

  function NotificationBody(m: RemoteMessage): Option<string> {
    if m.notification.Some? then m.notification.value.body else None
  }

  /** `remoteMessage.data?.body || remoteMessage.notification?.body || 'New message'`. */
  function MessageText(m: RemoteMessage): (r: string)
    ensures r != ""
    ensures Truthy(DataBody(m)) ==> r == DataBody(m).value
    ensures !Truthy(DataBody(m)) && Truthy(NotificationBody(m)) ==> r == NotificationBody(m).value
    ensures !Truthy(DataBody(m)) && !Truthy(NotificationBody(m)) ==> r == "New message"
  {
    OrElse(DataBody(m), OrElse(NotificationBody(m), "New message"))
  }

  // ---------------------------------------------------------------------------
  // Looking up the notification to merge into

  /** `chatData?.userId`: undefined when there is no chatData. */
  function UserKey(cd: Option<ChatData>): Option<string> {
    if cd.Some? then cd.value.userId else None
  }

  /** The `find` callback holds: the notice carries chatData whose userId is the key. */
  predicate MatchesKey(n: Notice, key: Option<string>) {
    n.content.chatData.Encoded? && n.content.chatData.value.userId == key
  }

  /** The `find` callback is false and does not throw. */
  predicate SkippedFor(n: Notice, key: Option<string>) {
    n.content.chatData.Absent? || (n.content.chatData.Encoded? && n.content.chatData.value.userId != key)
  }

  datatype Lookup = Found(index: nat) | NotFound | LookupThrew(at: nat)

  /** `notifications.find(...)` from position `from` on: the callback parses each notice's
      chatData, so a malformed one reached before any match throws. */
  function FindFrom(shown: seq<Notice>, key: Option<string>, from: nat): (r: Lookup)
    requires from <= |shown|
    ensures r.Found? ==> from <= r.index < |shown| && MatchesKey(shown[r.index], key)
    ensures r.LookupThrew? ==> from <= r.at < |shown| && shown[r.at].content.chatData == Malformed
    ensures r.Found? ==> forall j :: from <= j < r.index ==> SkippedFor(shown[j], key)
    ensures r.LookupThrew? ==> forall j :: from <= j < r.at ==> SkippedFor(shown[j], key)
    ensures r.NotFound? ==> forall j :: from <= j < |shown| ==> SkippedFor(shown[j], key)
    decreases |shown| - from
  {
    if from == |shown| then NotFound
    else match shown[from].content.chatData
      case Absent => FindFrom(shown, key, from + 1)
      case Malformed => LookupThrew(from)
      case Encoded(cd) => if cd.userId == key then Found(from) else FindFrom(shown, key, from + 1)
  }

  function FindExisting(shown: seq<Notice>, key: Option<string>): Lookup {
    FindFrom(shown, key, 0)
  }

  /** `existingNotification.notification.android.style.messages || []`; None when there is no
      style to read `messages` from, which throws. */
  function ExistingMessages(n: Notice): (r: Option<seq<StyleMessage>>)
    ensures r.None? <==> n.content.style == NoStyle
  {
    match n.content.style
    case NoStyle => None
    case OtherStyle => Some([])
    case Messaging(_, ms) => if ms.Some? then ms else Some([])
  }

  // ---------------------------------------------------------------------------
  // The icon

  /** The generated initial-letter avatar of a group chat. */
  function GroupAvatarUrl(title: string): (r: string)
    requires title != ""
  {
    "https://ui-avatars.com/api/?name=" + [ToUpperChar(title[0])] + "&background=4A90E2&color=fff&size=64"
  }

  function SenderAvatar(m: RemoteMessage): Option<string> {
    if m.data.Some? then m.data.value.senderAvatar else None
  }

  /** `avatarIcon`: a group chat downloads its generated avatar, otherwise a truthy `senderAvatar`
      is downloaded, otherwise there is none. */
  function AvatarIcon(cd: Option<ChatData>, title: string, m: RemoteMessage, fetch: string -> Option<string>): (r: Option<string>)
    requires title != ""
    ensures IsGroupChat(cd) ==> r == fetch(NotificationService.CroppedUrl(GroupAvatarUrl(title)))
    ensures !IsGroupChat(cd) && Truthy(SenderAvatar(m)) ==> r == fetch(NotificationService.CroppedUrl(SenderAvatar(m).value))
    ensures !IsGroupChat(cd) && !Truthy(SenderAvatar(m)) ==> r == None
  {
    if IsGroupChat(cd) then NotificationService.ProcessAvatarImage(Some(GroupAvatarUrl(title)), fetch)
    else if Truthy(SenderAvatar(m)) then NotificationService.ProcessAvatarImage(SenderAvatar(m), fetch)
    else None
  }

  /** The large and person icon: the downloaded image as a data URI, or the launcher icon. */
  function IconFor(avatar: Option<string>): (r: string)
    ensures !Truthy(avatar) <==> r == LauncherIcon
  {
    if Truthy(avatar) then "data:image/png;base64," + avatar.value else LauncherIcon
  }

  // ---------------------------------------------------------------------------
  // The handler

  /** The notification content shown for a payload, with the given message list. */
  function ContentFor(cd: Option<ChatData>, title: string, icon: string, messages: seq<StyleMessage>): Content {
    Content(
      title,
      if cd.Some? then Encoded(cd.value) else Absent,
      ChannelId,
      LauncherIcon,
      icon,
      Messaging(Person(OrElse(Some(title), "User"), icon), Some(messages)))
  }

  /** What `handleNotification(m)` asks notifee to display given the notifications on display,
      the avatar download and the clock; None when an exception was caught and nothing is shown. */
  function NotificationFor(m: RemoteMessage, shown: seq<Notice>, fetch: string -> Option<string>, now: int): (r: Option<DisplayRequest>)
  {
    match ParseChatData(m)
    case ParseThrew => None
    case Parsed(cd) =>
      var title := ChatTitle(cd, m);
      var icon := IconFor(AvatarIcon(cd, title, m, fetch));
      var message := StyleMessage(MessageText(m), now);
      match FindExisting(shown, UserKey(cd))
      case LookupThrew(_) => None
      case NotFound => Some(DisplayRequest(None, ContentFor(cd, title, icon, [message])))
      case Found(i) =>
        match ExistingMessages(shown[i])
        case None => None
        case Some(existing) =>
          Some(DisplayRequest(Some(shown[i].id), ContentFor(cd, title, icon, existing + [message])))
  }

  // ---------------------------------------------------------------------------
  // notifee's displayed-notification store

  predicate DistinctIds(shown: seq<Notice>) {
    forall i, j :: 0 <= i < j < |shown| ==> shown[i].id != shown[j].id
  }

  predicate HasId(shown: seq<Notice>, id: string) {
    exists i :: 0 <= i < |shown| && shown[i].id == id
  }

  /** The store after `displayNotification(req)`: a shown id is updated in place, an unknown id is
      added, and a request without id is added under `freshId`, the id notifee generates. */
  function Displayed(shown: seq<Notice>, req: DisplayRequest, freshId: string): (r: seq<Notice>)
    ensures DistinctIds(shown) && !HasId(shown, freshId) ==> DistinctIds(r)
  {
    if req.id.Some? && HasId(shown, req.id.value) then
      var r := seq(|shown|, i requires 0 <= i < |shown| =>
        if shown[i].id == req.id.value then Notice(req.id.value, req.content) else shown[i]);
      assert forall i :: 0 <= i < |r| ==> r[i].id == shown[i].id;
      r
    else
      var id := if req.id.Some? then req.id.value else freshId;
      shown + [Notice(id, req.content)]
  }

  class NotificationTray {
    var shown: seq<Notice>

    ghost predicate Valid()
      reads this
    {
      DistinctIds(shown)
    }

    constructor ()
      ensures Valid() && shown == []
    {
      shown := [];
    }

    /** The part of `handleNotification(m)` before its display: it awaits
        `getDisplayedNotifications()`, looks the sender up in that snapshot and awaits the avatar
        download. Nothing changes; the request is displayed later by Display, and other runs may
        display in between. */
    method Lookup(m: RemoteMessage, fetch: string -> Option<string>, now: int) returns (req: Option<DisplayRequest>)
      ensures req == NotificationFor(m, shown, fetch, now)
      ensures req.Some? && req.value.id.Some? ==> HasId(shown, req.value.id.value)
    {
      req := NotificationFor(m, shown, fetch, now);
      if req.Some? && req.value.id.Some? {
        var i := FindExisting(shown, UserKey(ParseChatData(m).chatData)).index;
        assert shown[i].id == req.value.id.value;
      }
    }

    /** The `displayNotification(req)` that ends a run. */
    method Display(req: DisplayRequest, freshId: string)
      requires Valid() && !HasId(shown, freshId)
      modifies this
      ensures Valid() && shown == Displayed(old(shown), req, freshId)
    {
      shown := Displayed(shown, req, freshId);
    }

    /** `handleNotification(m)` run to completion before anything else touches the tray: displays
        what NotificationFor asks for, or nothing when the handler caught an exception. */
    method HandleNotification(m: RemoteMessage, fetch: string -> Option<string>, now: int, freshId: string)
      returns (displayed: bool)
      requires Valid() && !HasId(shown, freshId)
      modifies this
      ensures Valid()
      ensures displayed == NotificationFor(m, old(shown), fetch, now).Some?
      ensures displayed ==> shown == Displayed(old(shown), NotificationFor(m, old(shown), fetch, now).value, freshId)
      ensures !displayed ==> shown == old(shown)
    {
      var req := Lookup(m, fetch, now);
      if req.Some? {
        Display(req.value, freshId);
        displayed := true;
      } else {
        displayed := false;
      }
    }
  }

  // ---------------------------------------------------------------------------
  // Properties

  /** The notice a request builds for its id, wherever it lands in the store. */
  lemma DisplayedReplacesInPlace(shown: seq<Notice>, i: nat, req: DisplayRequest, freshId: string)
    requires DistinctIds(shown)
    requires i < |shown| && req.id == Some(shown[i].id)
    ensures |Displayed(shown, req, freshId)| == |shown|
    ensures Displayed(shown, req, freshId)[i] == Notice(shown[i].id, req.content)
    ensures forall j :: 0 <= j < |shown| && j != i ==> Displayed(shown, req, freshId)[j] == shown[j]
  {
  }

  /** A payload whose chatData cannot be parsed leaves the store as it is. */
  lemma MalformedPayloadShowsNothing(m: RemoteMessage, shown: seq<Notice>, fetch: string -> Option<string>, now: int)
    requires m.data.Some? && m.data.value.chatData == Malformed
    ensures NotificationFor(m, shown, fetch, now).None?
  {
  }

  /** A payload matching a displayed notification re-displays it under the same id, its message
      list grown by exactly one message at the end; every other notification is untouched. */
  lemma MatchAppendsOneMessage(m: RemoteMessage, shown: seq<Notice>, fetch: string -> Option<string>, now: int, freshId: string)
    requires DistinctIds(shown)
    requires ParseChatData(m).Parsed?
    requires FindExisting(shown, UserKey(ParseChatData(m).chatData)).Found?
    ensures var i := FindExisting(shown, UserKey(ParseChatData(m).chatData)).index;
      var old_ := ExistingMessages(shown[i]);
      var r := NotificationFor(m, shown, fetch, now);
      (shown[i].content.style == NoStyle ==> r.None?) &&
      (old_.Some? ==>
        r.Some? && r.value.id == Some(shown[i].id)
        && |Displayed(shown, r.value, freshId)| == |shown|
        && Displayed(shown, r.value, freshId)[i].id == shown[i].id
        && Displayed(shown, r.value, freshId)[i].content.style.Messaging?
        && Displayed(shown, r.value, freshId)[i].content.style.messages
             == Some(old_.value + [StyleMessage(MessageText(m), now)])
        && (forall j :: 0 <= j < |shown| && j != i ==> Displayed(shown, r.value, freshId)[j] == shown[j]))
  {
    var i := FindExisting(shown, UserKey(ParseChatData(m).chatData)).index;
    var r := NotificationFor(m, shown, fetch, now);
    if ExistingMessages(shown[i]).Some? {
      DisplayedReplacesInPlace(shown, i, r.value, freshId);
    }
  }

  /** A payload matching nothing adds one notification, under a fresh id, holding exactly one message. */
  lemma NoMatchCreatesOne(m: RemoteMessage, shown: seq<Notice>, fetch: string -> Option<string>, now: int, freshId: string)
    requires ParseChatData(m).Parsed?
    requires FindExisting(shown, UserKey(ParseChatData(m).chatData)).NotFound?
    ensures var r := NotificationFor(m, shown, fetch, now);
      r.Some? && r.value.id.None?
      && Displayed(shown, r.value, freshId)[..|shown|] == shown
      && |Displayed(shown, r.value, freshId)| == |shown| + 1
      && Displayed(shown, r.value, freshId)[|shown|].id == freshId
      && Displayed(shown, r.value, freshId)[|shown|].content.style.messages == Some([StyleMessage(MessageText(m), now)])
  {
  }

  /** The displayed title, person and icons: the title is never empty, so the person's name is the
      title and never the 'User' fallback; both icons fall back to the launcher icon together. */
  lemma DisplayedContentShape(m: RemoteMessage, shown: seq<Notice>, fetch: string -> Option<string>, now: int)
    requires NotificationFor(m, shown, fetch, now).Some?
    ensures var c := NotificationFor(m, shown, fetch, now).value.content;
      var cd := ParseChatData(m).chatData;
      c.title == ChatTitle(cd, m) && c.title != ""
      && c.style.Messaging? && c.style.person.name == c.title
      && c.style.person.icon == c.largeIcon
      && c.smallIcon == LauncherIcon && c.channelId == ChannelId
      && (c.largeIcon == LauncherIcon <==> !Truthy(AvatarIcon(cd, c.title, m, fetch)))
      && (IsGroupChat(cd) ==> AvatarIcon(cd, c.title, m, fetch) == fetch(NotificationService.CroppedUrl(GroupAvatarUrl(c.title))))
  {
  }

  // ---------------------------------------------------------------------------
  // Grouping over a run of payloads

  /** Delivers `ms[k]` at time `now[k]`, in order, each run of the handler finishing before the
      next starts; `freshIds[k]` is the id notifee would give a new notification at that step. */
  function DeliverAll(shown: seq<Notice>, ms: seq<RemoteMessage>, fetch: string -> Option<string>, now: seq<int>, freshIds: seq<string>): seq<Notice>
    requires |now| == |ms| && |freshIds| == |ms|
    decreases |ms|
  {
    if ms == [] then shown
    else
      var n := |ms| - 1;
      var before := DeliverAll(shown, ms[..n], fetch, now[..n], freshIds[..n]);
      match NotificationFor(ms[n], before, fetch, now[n])
      case None => before
      case Some(req) => Displayed(before, req, freshIds[n])
  }

  /** The messages of a run of payloads, in arrival order. */
  function Arrivals(ms: seq<RemoteMessage>, now: seq<int>): (r: seq<StyleMessage>)
    requires |now| == |ms|
    ensures |r| == |ms|
    ensures forall k :: 0 <= k < |ms| ==> r[k] == StyleMessage(MessageText(ms[k]), now[k])
  {
    seq(|ms|, k requires 0 <= k < |ms| => StyleMessage(MessageText(ms[k]), now[k]))
  }

  /** The first payload for a user, with nothing displayed, creates a one-message notification. */
  lemma FirstPayloadCreates(m: RemoteMessage, key: Option<string>, fetch: string -> Option<string>, now: int, freshId: string)
    requires m.data.Some? && m.data.value.chatData.Encoded? && m.data.value.chatData.value.userId == key
    ensures NotificationFor(m, [], fetch, now).Some?
    ensures var r := Displayed([], NotificationFor(m, [], fetch, now).value, freshId);
      |r| == 1 && r[0].id == freshId && MatchesKey(r[0], key)
      && r[0].content.style.Messaging?
      && r[0].content.style.messages == Some([StyleMessage(MessageText(m), now)])
  {
  }

  /** A further payload for the same user merges into the single notification on display. */
  lemma NextPayloadMerges(n: Notice, xs: seq<StyleMessage>, m: RemoteMessage, key: Option<string>, fetch: string -> Option<string>, now: int, freshId: string)
    requires MatchesKey(n, key) && n.content.style.Messaging? && n.content.style.messages == Some(xs)
    requires m.data.Some? && m.data.value.chatData.Encoded? && m.data.value.chatData.value.userId == key
    ensures NotificationFor(m, [n], fetch, now).Some?
    ensures var r := Displayed([n], NotificationFor(m, [n], fetch, now).value, freshId);
      |r| == 1 && r[0].id == n.id && MatchesKey(r[0], key)
      && r[0].content.style.Messaging?
      && r[0].content.style.messages == Some(xs + [StyleMessage(MessageText(m), now)])
  {
    assert FindExisting([n], key) == Found(0);
    var req := NotificationFor(m, [n], fetch, now).value;
    assert req.id == Some(n.id);
    assert HasId([n], n.id);
  }

  /** Payloads for the same user, arriving while nothing is displayed and each handled to
      completion before the next arrives, end up as ONE notification under the first generated
      id, holding every message in arrival order. OverlappingRunsDuplicate shows why the runs
      must not overlap. */
  lemma {:induction false} SameUserPayloadsGroup(ms: seq<RemoteMessage>, key: Option<string>, fetch: string -> Option<string>, now: seq<int>, freshIds: seq<string>)
    requires |ms| >= 1 && |now| == |ms| && |freshIds| == |ms|
    requires forall k :: 0 <= k < |ms| ==>
      (ms[k].data.Some? && ms[k].data.value.chatData.Encoded? && ms[k].data.value.chatData.value.userId == key)
    ensures var r := DeliverAll([], ms, fetch, now, freshIds);
      |r| == 1 && r[0].id == freshIds[0] && MatchesKey(r[0], key)
      && r[0].content.style.Messaging?
      && r[0].content.style.messages == Some(Arrivals(ms, now))
  {
    var n := |ms| - 1;
    if n == 0 {
      GroupStart(ms, key, fetch, now, freshIds);
    } else {
      SameUserPayloadsGroup(ms[..n], key, fetch, now[..n], freshIds[..n]);
      assert freshIds[..n][0] == freshIds[0];
      GroupStep(ms, key, fetch, now, freshIds);
    }
  }

  /** The base of SameUserPayloadsGroup: a run of one payload. */
  lemma GroupStart(ms: seq<RemoteMessage>, key: Option<string>, fetch: string -> Option<string>, now: seq<int>, freshIds: seq<string>)
    requires |ms| == 1 && |now| == 1 && |freshIds| == 1
    requires ms[0].data.Some? && ms[0].data.value.chatData.Encoded? && ms[0].data.value.chatData.value.userId == key
    ensures var r := DeliverAll([], ms, fetch, now, freshIds);
      |r| == 1 && r[0].id == freshIds[0] && MatchesKey(r[0], key)
      && r[0].content.style.Messaging?
      && r[0].content.style.messages == Some(Arrivals(ms, now))
  {
    assert DeliverAll([], ms[..0], fetch, now[..0], freshIds[..0]) == [];
    FirstPayloadCreates(ms[0], key, fetch, now[0], freshIds[0]);
    DeliverLast([], ms, fetch, now, freshIds);
    assert Arrivals(ms, now) == [StyleMessage(MessageText(ms[0]), now[0])];
  }

  /** The step of SameUserPayloadsGroup: one more payload merges into the single notification. */
  lemma GroupStep(ms: seq<RemoteMessage>, key: Option<string>, fetch: string -> Option<string>, now: seq<int>, freshIds: seq<string>)
    requires |ms| >= 2 && |now| == |ms| && |freshIds| == |ms|
    requires var n := |ms| - 1;
      ms[n].data.Some? && ms[n].data.value.chatData.Encoded? && ms[n].data.value.chatData.value.userId == key
    requires var n := |ms| - 1;
      var r := DeliverAll([], ms[..n], fetch, now[..n], freshIds[..n]);
      |r| == 1 && r[0].id == freshIds[0] && MatchesKey(r[0], key)
      && r[0].content.style.Messaging?
      && r[0].content.style.messages == Some(Arrivals(ms[..n], now[..n]))
    ensures var r := DeliverAll([], ms, fetch, now, freshIds);
      |r| == 1 && r[0].id == freshIds[0] && MatchesKey(r[0], key)
      && r[0].content.style.Messaging?
      && r[0].content.style.messages == Some(Arrivals(ms, now))
  {
    var n := |ms| - 1;
    var before := DeliverAll([], ms[..n], fetch, now[..n], freshIds[..n]);
    NextPayloadMerges(before[0], Arrivals(ms[..n], now[..n]), ms[n], key, fetch, now[n], freshIds[n]);
    assert before == [before[0]];
    DeliverLast([], ms, fetch, now, freshIds);
    ArrivalsExtend(ms, now);
  }

  /** One step of a run: the last payload is displayed on top of what the earlier ones left. */
  lemma DeliverLast(shown: seq<Notice>, ms: seq<RemoteMessage>, fetch: string -> Option<string>, now: seq<int>, freshIds: seq<string>)
    requires |ms| >= 1 && |now| == |ms| && |freshIds| == |ms|
    ensures var n := |ms| - 1;
      var before := DeliverAll(shown, ms[..n], fetch, now[..n], freshIds[..n]);
      var req := NotificationFor(ms[n], before, fetch, now[n]);
      DeliverAll(shown, ms, fetch, now, freshIds) == if req.Some? then Displayed(before, req.value, freshIds[n]) else before
  {
  }

  /** The arrivals of a run are those of its prefix followed by the last payload's message. */
  lemma ArrivalsExtend(ms: seq<RemoteMessage>, now: seq<int>)
    requires |ms| >= 1 && |now| == |ms|
    ensures var n := |ms| - 1;
      Arrivals(ms, now) == Arrivals(ms[..n], now[..n]) + [StyleMessage(MessageText(ms[n]), now[n])]
  {
  }

  // ---------------------------------------------------------------------------
  // Overlapping runs

  /** Two runs of the handler that overlap: both look the tray up before either displays.
      Both runs download to the same temporary file, so each run's download is its own
      `fetch1`/`fetch2`: what one run reads may be the other's image or nothing at all. */
  method OverlappingRuns(tray: NotificationTray, m1: RemoteMessage, m2: RemoteMessage,
                         fetch1: string -> Option<string>, fetch2: string -> Option<string>,
                         now1: int, now2: int, id1: string, id2: string)
    requires tray.Valid() && !HasId(tray.shown, id1) && !HasId(tray.shown, id2) && id1 != id2
    modifies tray
    ensures tray.Valid()
    ensures (var r1 := NotificationFor(m1, old(tray.shown), fetch1, now1);
      var r2 := NotificationFor(m2, old(tray.shown), fetch2, now2);
      var mid := if r1.Some? then Displayed(old(tray.shown), r1.value, id1) else old(tray.shown);
      tray.shown == if r2.Some? then Displayed(mid, r2.value, id2) else mid)
  {
    var r1 := tray.Lookup(m1, fetch1, now1);
    var r2 := tray.Lookup(m2, fetch2, now2);
    if r1.Some? {
      DisplayKeepsOtherIds(tray.shown, r1.value, id1, id2);
      tray.Display(r1.value, id1);
    }
    if r2.Some? {
      tray.Display(r2.value, id2);
    }
  }

  /** A display adds no id other than the request's own or the fresh one. */
  lemma DisplayKeepsOtherIds(shown: seq<Notice>, req: DisplayRequest, freshId: string, other: string)
    requires !HasId(shown, other) && other != freshId
    requires req.id.Some? ==> HasId(shown, req.id.value)
    ensures !HasId(Displayed(shown, req, freshId), other)
  {
    var r := Displayed(shown, req, freshId);
    if req.id.Some? {
      assert |r| == |shown| && forall i :: 0 <= i < |r| ==> r[i].id == shown[i].id;
    } else {
      assert r == shown + [Notice(freshId, req.content)];
    }
  }

  /** When two runs for one sender overlap on a tray where the sender has no notification, both
      find nothing and the sender ends with TWO notifications, where runs handled one after the
      other give one (SameUserPayloadsGroup). */
  lemma OverlappingRunsDuplicate(m1: RemoteMessage, m2: RemoteMessage, key: Option<string>, shown: seq<Notice>,
                                 fetch1: string -> Option<string>, fetch2: string -> Option<string>,
                                 now1: int, now2: int, id1: string, id2: string)
    requires m1.data.Some? && m1.data.value.chatData.Encoded? && m1.data.value.chatData.value.userId == key
    requires m2.data.Some? && m2.data.value.chatData.Encoded? && m2.data.value.chatData.value.userId == key
    requires !HasId(shown, id1) && id1 != id2
    requires FindExisting(shown, key).NotFound?
    ensures NotificationFor(m1, shown, fetch1, now1).Some? && NotificationFor(m2, shown, fetch2, now2).Some?
    ensures var r := Displayed(Displayed(shown, NotificationFor(m1, shown, fetch1, now1).value, id1),
                               NotificationFor(m2, shown, fetch2, now2).value, id2);
      |r| == |shown| + 2 && r[..|shown|] == shown
      && r[|shown|].id == id1 && r[|shown| + 1].id == id2
      && MatchesKey(r[|shown|], key) && MatchesKey(r[|shown| + 1], key)
  {
    var r1 := NotificationFor(m1, shown, fetch1, now1).value;
    var r2 := NotificationFor(m2, shown, fetch2, now2).value;
    var mid := Displayed(shown, r1, id1);
    assert mid == shown + [Notice(id1, r1.content)];
    assert r2.id.None?;
    assert Displayed(mid, r2, id2) == mid + [Notice(id2, r2.content)];
  }

  /** When two runs for one sender overlap on a tray where the sender's notification is shown,
      both runs read the same old message list and re-display under the same id: the second
      display replaces the first, so the notification ends with the old list plus the second
      message only, and the first message is lost. */
  lemma OverlappingRunsLoseMessage(m1: RemoteMessage, m2: RemoteMessage, key: Option<string>, shown: seq<Notice>,
                                   i: nat, xs: seq<StyleMessage>,
                                   fetch1: string -> Option<string>, fetch2: string -> Option<string>,
                                   now1: int, now2: int, id1: string, id2: string)
    requires DistinctIds(shown)
    requires m1.data.Some? && m1.data.value.chatData.Encoded? && m1.data.value.chatData.value.userId == key
    requires m2.data.Some? && m2.data.value.chatData.Encoded? && m2.data.value.chatData.value.userId == key
    requires FindExisting(shown, key) == Found(i)
    requires shown[i].content.style.Messaging? && shown[i].content.style.messages == Some(xs)
    ensures NotificationFor(m1, shown, fetch1, now1).Some? && NotificationFor(m2, shown, fetch2, now2).Some?
    ensures var r := Displayed(Displayed(shown, NotificationFor(m1, shown, fetch1, now1).value, id1),
                               NotificationFor(m2, shown, fetch2, now2).value, id2);
      var lost := StyleMessage(MessageText(m1), now1);
      |r| == |shown| && r[i].id == shown[i].id
      && r[i].content.style.Messaging?
      && r[i].content.style.messages == Some(xs + [StyleMessage(MessageText(m2), now2)])
      && (forall j :: 0 <= j < |shown| && j != i ==> r[j] == shown[j])
      && (lost !in xs && lost != StyleMessage(MessageText(m2), now2) ==> lost !in r[i].content.style.messages.value)
  {
    MergeRequest(m1, key, shown, i, xs, fetch1, now1);
    MergeRequest(m2, key, shown, i, xs, fetch2, now2);
    ReplacedTwice(shown, i, NotificationFor(m1, shown, fetch1, now1).value, NotificationFor(m2, shown, fetch2, now2).value, id1, id2);
  }

  /** Two displays under the id of `shown[i]`: the second one's content is what remains. */
  lemma ReplacedTwice(shown: seq<Notice>, i: nat, r1: DisplayRequest, r2: DisplayRequest, id1: string, id2: string)
    requires DistinctIds(shown)
    requires i < |shown| && r1.id == Some(shown[i].id) && r2.id == Some(shown[i].id)
    ensures var r := Displayed(Displayed(shown, r1, id1), r2, id2);
      |r| == |shown| && r[i] == Notice(shown[i].id, r2.content)
      && forall j :: 0 <= j < |shown| && j != i ==> r[j] == shown[j]
  {
    DisplayedReplacesInPlace(shown, i, r1, id1);
    var mid := Displayed(shown, r1, id1);
    assert forall j :: 0 <= j < |mid| ==> mid[j].id == shown[j].id;
    DisplayedReplacesInPlace(mid, i, r2, id2);
  }

  /** The request a run computes for a sender whose notification `shown[i]` holds `xs`. */
  lemma MergeRequest(m: RemoteMessage, key: Option<string>, shown: seq<Notice>, i: nat, xs: seq<StyleMessage>,
                     fetch: string -> Option<string>, now: int)
    requires m.data.Some? && m.data.value.chatData.Encoded? && m.data.value.chatData.value.userId == key
    requires FindExisting(shown, key) == Found(i)
    requires shown[i].content.style.Messaging? && shown[i].content.style.messages == Some(xs)
    ensures var r := NotificationFor(m, shown, fetch, now);
      r.Some? && r.value.id == Some(shown[i].id) && r.value.content.style.Messaging?
      && r.value.content.style.messages == Some(xs + [StyleMessage(MessageText(m), now)])
  {
  }
}
