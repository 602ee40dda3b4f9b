/** `NotificationProvider` of `src/firebase/NotificationProvider.js`: the effect that wires
    Firebase messaging to the notification tray and to navigation. Both effects run once
    at mount and capture the signed-in user of that render; `fetch` calls are recorded as
    token pushes, navigations as `navigate` calls, and the 1000 ms cold-start timer as a
    pending step that fires later. */
module NotificationProvider {
  import opened Common
  import opened Auth
  import opened JsValue
  import opened NotificationHandlers

  /** `navigation.navigate(route, params)`. */
  datatype Navigation = Navigate(route: string, params: Value)

  /** `fetch(`${ANDROID_API_URL}users/update-fcm-token`, {method: 'PATCH', ...})`, with the URL
      relative to the API base. */
  datatype TokenPush = TokenPush(path: string, verb: string, authorization: string, body: Value)

  /** `navigateToChat(chatData)`: always the 'Chat' route. A group chat (truthy `isGroupChat`)
      gets a null `userId`; otherwise `userId`, like `chatId`, `isGroupChat` and `chatName`,
      is copied from the payload, undefined where the payload has none. */
  function NavigateToChat(cd: ChatData): (r: Navigation)
    ensures r.route == "Chat" && r.params.Obj?
    ensures IsGroupChat(Some(cd)) ==> Get(r.params, "userId") == Null
    ensures !IsGroupChat(Some(cd)) ==> Get(r.params, "userId") == StrField(cd.userId)
    ensures Get(r.params, "chatId") == StrField(cd.chatId)
    ensures Get(r.params, "chatName") == StrField(cd.chatName)
    ensures cd.isGroupChat.Some? ==> Get(r.params, "isGroupChat") == Bool(cd.isGroupChat.value)
    ensures cd.isGroupChat.None? ==> Get(r.params, "isGroupChat") == Undefined
  {
    Navigate("Chat", Obj(map[
      "userId" := if IsGroupChat(Some(cd)) then Null else StrField(cd.userId),
      "chatId" := StrField(cd.chatId),
      "isGroupChat" := if cd.isGroupChat.Some? then Bool(cd.isGroupChat.value) else Undefined,
      "chatName" := StrField(cd.chatName)]))
  }

  /** The route parameters carry the chat back: a one-to-one chat navigates with the sender of the
      payload, and two payloads that differ in their chat id never navigate to the same place. */
  lemma NavigationIdentifiesChat(a: ChatData, b: ChatData)
    requires a.chatId != b.chatId
    ensures NavigateToChat(a) != NavigateToChat(b)
  {
    assert Get(NavigateToChat(a).params, "chatId") != Get(NavigateToChat(b).params, "chatId");
  }

  /** `updateFcmToken(token)` as the effect captured it: the bearer is the captured user's token,
      spelled `undefined` when there is none. */
  function FcmUpdate(token: string, captured: Option<AuthState>): (r: TokenPush)
    ensures r.path == "users/update-fcm-token" && r.verb == "PATCH"
    ensures Get(r.body, "fcmToken") == Str(token)
    ensures TokenOf(captured).Some? ==> r.authorization == "Bearer " + TokenOf(captured).value
    ensures TokenOf(captured).None? ==> r.authorization == "Bearer undefined"
  {
    TokenPush("users/update-fcm-token", "PATCH",
      "Bearer " + TemplateString(StrField(TokenOf(captured))),
      Obj(map["fcmToken" := Str(token)]))
  }

  /** `remoteMessage.data?.chatData` then `JSON.parse`: the chat data to navigate to, or None when
      the property is missing or empty, or when parsing throws (which ends the listener). */
  function OpenedChat(m: RemoteMessage): (r: Option<ChatData>)
    ensures r.Some? <==> ParseChatData(m).Parsed? && ParseChatData(m).chatData.Some?
    ensures r.Some? ==> m.data.Some? && m.data.value.chatData == Encoded(r.value)
  {
    if m.data.Some? && m.data.value.chatData.Encoded? then Some(m.data.value.chatData.value) else None
  }

  class Provider {
    /** The store notifee displays; shared with the background handler. */
    const tray: NotificationTray
    /** `currentUser` as the mounting render saw it. */
    const captured: Option<AuthState>
    var navigations: seq<Navigation>
    var tokenPushes: seq<TokenPush>
    /** The foreground `onMessage` subscription is live. */
    var foregroundSubscribed: bool
    /** Cold-start navigations waiting for their 1000 ms timer, in the order they were armed. */
    var coldStartPending: seq<ChatData>

    ghost predicate Valid()
      reads this, tray
    {
      tray.Valid()
    }

    /** Mount: both effects run; the foreground listener is subscribed, nothing has navigated or
        been pushed yet. */
    constructor (tray: NotificationTray, current: Option<AuthState>)
      requires tray.Valid()
      ensures Valid() && this.tray == tray && captured == current
      ensures navigations == [] && tokenPushes == [] && foregroundSubscribed && coldStartPending == []
    {
      this.tray := tray;
      captured := current;
      navigations := [];
      tokenPushes := [];
      foregroundSubscribed := true;
      coldStartPending := [];
    }

    /** `requestUserPermission()` resolved in the first effect: a truthy token is pushed. */
    method OnPermissionToken(token: Option<string>)
      requires Valid()
      modifies this
      ensures Valid()
      ensures Common.Truthy(token) ==> tokenPushes == old(tokenPushes) + [FcmUpdate(token.value, captured)]
      ensures !Common.Truthy(token) ==> tokenPushes == old(tokenPushes)
      ensures navigations == old(navigations) && foregroundSubscribed == old(foregroundSubscribed)
      ensures coldStartPending == old(coldStartPending)
    {
      if Common.Truthy(token) {
        tokenPushes := tokenPushes + [FcmUpdate(token.value, captured)];
      }
    }

    /** `onMessage`: while subscribed, the payload goes to `handleNotification`; after unmount the
        foreground listener is gone and the tray is untouched. */
    method OnForegroundMessage(m: RemoteMessage, fetch: string -> Option<string>, now: int, freshId: string)
      requires Valid() && !HasId(tray.shown, freshId)
      modifies tray
      ensures Valid()
      ensures foregroundSubscribed ==>
        (tray.shown == if NotificationFor(m, old(tray.shown), fetch, now).Some?
          then Displayed(old(tray.shown), NotificationFor(m, old(tray.shown), fetch, now).value, freshId)
          else old(tray.shown))
      ensures !foregroundSubscribed ==> tray.shown == old(tray.shown)
    {
      if foregroundSubscribed {
        var _ := tray.HandleNotification(m, fetch, now, freshId);
      }
    }

    /** `setBackgroundMessageHandler(handleNotification)`: never unsubscribed. */
    method OnBackgroundMessage(m: RemoteMessage, fetch: string -> Option<string>, now: int, freshId: string)
      requires Valid() && !HasId(tray.shown, freshId)
      modifies tray
      ensures Valid()
      ensures tray.shown == (
        if NotificationFor(m, old(tray.shown), fetch, now).Some?
        then Displayed(old(tray.shown), NotificationFor(m, old(tray.shown), fetch, now).value, freshId)
        else old(tray.shown))
    {
      var _ := tray.HandleNotification(m, fetch, now, freshId);
    }

    /** `onNotificationOpenedApp`: navigates to the chat of a payload that carries chat data, at
        once; a listener that is never removed, so this holds after unmount as well. */
    method OnNotificationOpened(m: RemoteMessage)
      requires Valid()
      modifies this
      ensures Valid()
      ensures OpenedChat(m).Some? ==> navigations == old(navigations) + [NavigateToChat(OpenedChat(m).value)]
      ensures OpenedChat(m).None? ==> navigations == old(navigations)
      ensures tokenPushes == old(tokenPushes) && foregroundSubscribed == old(foregroundSubscribed)
      ensures coldStartPending == old(coldStartPending)
    {
      var cd := OpenedChat(m);
      if cd.Some? {
        navigations := navigations + [NavigateToChat(cd.value)];
      }
    }

    /** `getInitialNotification()` resolved: a payload with chat data arms the 1000 ms timer and
        navigates nothing yet. */
    method OnInitialNotification(m: Option<RemoteMessage>)
      requires Valid()
      modifies this
      ensures Valid()
      ensures m.Some? && OpenedChat(m.value).Some? ==> coldStartPending == old(coldStartPending) + [OpenedChat(m.value).value]
      ensures !(m.Some? && OpenedChat(m.value).Some?) ==> coldStartPending == old(coldStartPending)
      ensures navigations == old(navigations) && tokenPushes == old(tokenPushes)
      ensures foregroundSubscribed == old(foregroundSubscribed)
    {
      if m.Some? {
        var cd := OpenedChat(m.value);
        if cd.Some? {
          coldStartPending := coldStartPending + [cd.value];
        }
      }
    }

    /** The oldest cold-start timer fires and navigates; the timer is never cleared, so this
        happens after unmount too. */
    method ColdStartTimerFires()
      requires Valid()
      modifies this
      ensures Valid()
      ensures old(coldStartPending) != [] ==>
        && navigations == old(navigations) + [NavigateToChat(old(coldStartPending)[0])]
        && coldStartPending == old(coldStartPending)[1..]
      ensures old(coldStartPending) == [] ==> navigations == old(navigations) && coldStartPending == []
      ensures tokenPushes == old(tokenPushes) && foregroundSubscribed == old(foregroundSubscribed)
    {
      if coldStartPending != [] {
        navigations := navigations + [NavigateToChat(coldStartPending[0])];
        coldStartPending := coldStartPending[1..];
      }
    }

    /** `onTokenRefresh`: the new token is pushed only when the captured user has a token. */
    method OnTokenRefresh(token: string)
      requires Valid()
      modifies this
      ensures Valid()
      ensures Common.Truthy(TokenOf(captured)) ==> tokenPushes == old(tokenPushes) + [FcmUpdate(token, captured)]
      ensures !Common.Truthy(TokenOf(captured)) ==> tokenPushes == old(tokenPushes)
      ensures navigations == old(navigations) && foregroundSubscribed == old(foregroundSubscribed)
      ensures coldStartPending == old(coldStartPending)
    {
      if Common.Truthy(TokenOf(captured)) {
        tokenPushes := tokenPushes + [FcmUpdate(token, captured)];
      }
    }

    /** The effect's cleanup: only the foreground listener is unsubscribed. */
    method Unmount()
      requires Valid()
      modifies this
      ensures Valid() && !foregroundSubscribed
      ensures navigations == old(navigations) && tokenPushes == old(tokenPushes)
      ensures coldStartPending == old(coldStartPending)
    {
      foregroundSubscribed := false;
    }
  }

  /** A cold start from a one-to-one chat notification, with the provider unmounted before the
      second passes: the timer still fires and navigates to the sender's chat. */
  method ColdStartAfterUnmount(cd: ChatData, user: Option<AuthState>) returns (navigations: seq<Navigation>)
    requires !IsGroupChat(Some(cd))
    ensures |navigations| == 1 && navigations[0].route == "Chat"
    ensures Get(navigations[0].params, "userId") == StrField(cd.userId)
  {
    var tray := new NotificationTray();
    var p := new Provider(tray, user);
    p.OnInitialNotification(Some(RemoteMessage(None, Some(PushData(Encoded(cd), None, None)))));
    assert p.navigations == [];
    p.Unmount();
    p.ColdStartTimerFires();
    navigations := p.navigations;
  }

  /** Signed out, a token refresh pushes nothing, and a permission token is still pushed with the
      bearer spelled `undefined`. */
  method SignedOutPushes(permission: string, refreshed: string) returns (pushes: seq<TokenPush>)
    requires permission != ""
    ensures pushes == [FcmUpdate(permission, None)]
    ensures pushes[0].authorization == "Bearer undefined"
  {
    var tray := new NotificationTray();
    var p := new Provider(tray, None);
    p.OnPermissionToken(Some(permission));
    p.OnTokenRefresh(refreshed);
    pushes := p.tokenPushes;
  }
}
