/** The group-info screen of `src/views/Chat/components/GroupInfo.js`: who counts
    as admin, which controls are shown, which users can be added, and the
    rename, add and remove handlers with the requests they make. Each awaited
    mutation is split into the call and its settlement. */
module GroupInfo {
  import opened Common
  import opened JsValue
  import opened ApiSlice
  import opened Auth
  import ChatApi

  const UpdateFailed: string := "Failed to update group name"
  const AddFailed: string := "Failed to add member"
  const RemoveFailed: string := "Failed to remove member"

  /** `groupInfo?.data?.chat`, once loaded. */
  datatype GroupChat = GroupChat(chatName: Option<string>, groupAdmin: Option<ListedUser>, users: seq<ListedUser>)

  /** `chat?.groupAdmin?._id`. */
  function AdminId(chat: Option<GroupChat>): Option<string> {
    if chat.Some? && chat.value.groupAdmin.Some? then chat.value.groupAdmin.value.id else None
  }

  /** `isAdmin`: the admin's id equals the viewer's id, compared with `===`, so two missing ids
      count as equal. */
  predicate IsAdmin(chat: Option<GroupChat>, me: Option<string>) {
    AdminId(chat) == me
  }

  /** The viewer is admin exactly when the loaded chat names an admin with the viewer's id; and
      before both the chat and the viewer's id are known, the admin controls are shown. */
  lemma AdminMeansSameId(chat: Option<GroupChat>, me: string)
    ensures IsAdmin(chat, Some(me)) <==>
      chat.Some? && chat.value.groupAdmin.Some? && chat.value.groupAdmin.value.id == Some(me)
    ensures IsAdmin(None, None)
  {
  }

  /** `chat?.users.some(member => member._id === id)`; without a chat nobody is a member. */
  predicate IsMember(chat: Option<GroupChat>, id: Option<string>) {
    chat.Some? && exists i :: 0 <= i < |chat.value.users| && chat.value.users[i].id == id
  }

  /** `filteredUsers`: the users whose name contains the query, case insensitively, and who are
      not members of the group, in list order; `[]` while the user list is not loaded. */
  function AddCandidates(allUsers: Option<seq<ListedUser>>, query: string, chat: Option<GroupChat>): (r: seq<ListedUser>)
    ensures allUsers.None? ==> r == []
    ensures allUsers.Some? ==>
      forall u :: u in r <==> u in allUsers.value && MatchesQuery(u.username, query) && !IsMember(chat, u.id)
  {
    if allUsers.None? then []
    else Filter(allUsers.value, (u: ListedUser) => MatchesQuery(u.username, query) && !IsMember(chat, u.id))
  }

  /** No candidate is already a member, and before the group is loaded only the name filter applies. */
  lemma CandidatesAreOutsiders(allUsers: seq<ListedUser>, query: string, chat: Option<GroupChat>)
    ensures forall u :: u in AddCandidates(Some(allUsers), query, chat) ==> !IsMember(chat, u.id)
    ensures chat.None? ==> forall u ::
      u in AddCandidates(Some(allUsers), query, chat) <==> u in allUsers && MatchesQuery(u.username, query)
  {
  }

  /** Which controls of the header and the member list are rendered: the pencil, the name input
      with its Save button, the add button, and a remove button per member row. */
  datatype Controls = Controls(edit: bool, save: bool, add: bool, remove: seq<bool>)

  /** `isEditingName` swaps the name and its pencil for the input and Save; the pencil, the add
      button and the remove buttons are further gated on `isAdmin`. */
  function ControlsFor(chat: Option<GroupChat>, me: Option<string>, editing: bool, members: seq<ListedUser>): (r: Controls)
    ensures r.edit == (IsAdmin(chat, me) && !editing) && r.save == editing
    ensures r.add == IsAdmin(chat, me) && |r.remove| == |members|
    ensures forall i :: 0 <= i < |members| ==>
      (r.remove[i] <==> IsAdmin(chat, me) && members[i].id != AdminId(chat))
  {
    var admin := IsAdmin(chat, me);
    Controls(admin && !editing, editing, admin,
      seq(|members|, i requires 0 <= i < |members| => admin && members[i].id != AdminId(chat)))
  }

  /** A viewer who is not admin sees no admin control at all, the pencil and the Save button are
      never shown together, and no row whose id is the admin's has a remove button. */
  lemma ControlsAreAdminOnly(chat: Option<GroupChat>, me: Option<string>, editing: bool, members: seq<ListedUser>)
    ensures !IsAdmin(chat, me) ==>
      var c := ControlsFor(chat, me, editing, members);
      !c.edit && !c.add && forall i :: 0 <= i < |c.remove| ==> !c.remove[i]
    ensures !(ControlsFor(chat, me, editing, members).edit && ControlsFor(chat, me, editing, members).save)
    ensures forall i :: 0 <= i < |members| && members[i].id == AdminId(chat) ==> !ControlsFor(chat, me, editing, members).remove[i]
  {
  }

  /** The request a member handler makes: `{chatId, userId}` carries the user at the top level, so
      the endpoint, which reads only `arg.data`, sends an undefined body. */
  function MemberRequest(e: ChatApi.Endpoint, chatId: string, userId: Option<string>): (q: Query)
    requires e == ChatApi.AddGroupMember || e == ChatApi.RemoveGroupMember
    ensures q.body == Json(Undefined)
    ensures e == ChatApi.AddGroupMember ==> q.url == "chats/group/" + chatId + "/add" && q.verb == POST
    ensures e == ChatApi.RemoveGroupMember ==> q.url == "chats/group/" + chatId && q.verb == DELETE
  {
    var arg := Obj(map["chatId" := Str(chatId), "userId" := StrField(userId)]);
    ChatApi.TopLevelFieldsAreDropped(e, chatId, "userId", StrField(userId));
    assert Get(arg, "chatId") == Str(chatId);
    ChatApi.QueryOf(e, arg)
  }

  /** The request `handleUpdateName` makes: `{chatId, chatName}` likewise sends an undefined body,
      so the new name never reaches the server. */
  function RenameRequest(chatId: string, name: string): (q: Query)
    ensures q == Query("chats/group/" + chatId, PUT, Json(Undefined))
  {
    var arg := Obj(map["chatId" := Str(chatId), "chatName" := Str(name)]);
    ChatApi.TopLevelFieldsAreDropped(ChatApi.UpdateGroupChat, chatId, "chatName", Str(name));
    assert Get(arg, "chatId") == Str(chatId);
    ChatApi.QueryOf(ChatApi.UpdateGroupChat, arg)
  }

  class GroupInfoScreen {
    /** Route param. */
    const chatId: string
    /** `currentUser?.data?.user?._id`. */
    const me: Option<string>

    var chat: Option<GroupChat>
    var allUsers: Option<seq<ListedUser>>
    var isEditingName: bool
    /** The name input; `chat?.chatName` may put undefined into it. */
    var newGroupName: Option<string>
    var showAddMembers: bool
    var searchQuery: string
    /** Error alerts shown, in order. */
    var alerts: seq<string>
    var updatesPending: nat
    var addsPending: nat
    var removesPending: nat

    constructor (chatId: string, me: Option<string>)
      ensures this.chatId == chatId && this.me == me
      ensures chat == None && allUsers == None && !isEditingName && newGroupName == Some("")
      ensures !showAddMembers && searchQuery == "" && alerts == []
      ensures updatesPending == 0 && addsPending == 0 && removesPending == 0
    {
      this.chatId := chatId;
      this.me := me;
      chat := None;
      allUsers := None;
      isEditingName := false;
      newGroupName := Some("");
      showAddMembers := false;
      searchQuery := "";
      alerts := [];
      updatesPending := 0;
      addsPending := 0;
      removesPending := 0;
    }

    /** The add-member list as rendered now. */
    function Candidates(): (r: seq<ListedUser>)
      reads this
      ensures forall u :: u in r ==> !IsMember(chat, u.id) && MatchesQuery(u.username, searchQuery)
    {
      AddCandidates(allUsers, searchQuery, chat)
    }

    method OnGroupInfoLoaded(c: Option<GroupChat>)
      modifies this
      ensures chat == c
      ensures allUsers == old(allUsers) && isEditingName == old(isEditingName) && newGroupName == old(newGroupName)
      ensures showAddMembers == old(showAddMembers) && searchQuery == old(searchQuery) && alerts == old(alerts)
      ensures updatesPending == old(updatesPending) && addsPending == old(addsPending) && removesPending == old(removesPending)
    {
      chat := c;
    }

    method OnUsersLoaded(users: Option<seq<ListedUser>>)
      modifies this
      ensures allUsers == users
      ensures chat == old(chat) && isEditingName == old(isEditingName) && newGroupName == old(newGroupName)
      ensures showAddMembers == old(showAddMembers) && searchQuery == old(searchQuery) && alerts == old(alerts)
      ensures updatesPending == old(updatesPending) && addsPending == old(addsPending) && removesPending == old(removesPending)
    {
      allUsers := users;
    }

    method SetSearchQuery(query: string)
      modifies this
      ensures searchQuery == query
      ensures chat == old(chat) && allUsers == old(allUsers) && isEditingName == old(isEditingName)
      ensures newGroupName == old(newGroupName) && showAddMembers == old(showAddMembers) && alerts == old(alerts)
      ensures updatesPending == old(updatesPending) && addsPending == old(addsPending) && removesPending == old(removesPending)
    {
      searchQuery := query;
    }

    /** The pencil, rendered only for the admin and only while the name is not being edited: the
        input is filled with the current name. Where no pencil is rendered, nothing happens. */
    method StartEditing()
      modifies this
      ensures IsAdmin(chat, me) && !old(isEditingName) ==>
        isEditingName && newGroupName == (if chat.Some? then chat.value.chatName else None)
      ensures !(IsAdmin(chat, me) && !old(isEditingName)) ==>
        isEditingName == old(isEditingName) && newGroupName == old(newGroupName)
      ensures chat == old(chat) && allUsers == old(allUsers) && showAddMembers == old(showAddMembers)
      ensures searchQuery == old(searchQuery) && alerts == old(alerts)
      ensures updatesPending == old(updatesPending) && addsPending == old(addsPending) && removesPending == old(removesPending)
    {
      if IsAdmin(chat, me) && !isEditingName {
        newGroupName := if chat.Some? then chat.value.chatName else None;
        isEditingName := true;
      }
    }

    method SetNewGroupName(text: string)
      modifies this
      ensures newGroupName == Some(text)
      ensures chat == old(chat) && allUsers == old(allUsers) && isEditingName == old(isEditingName)
      ensures showAddMembers == old(showAddMembers) && searchQuery == old(searchQuery) && alerts == old(alerts)
      ensures updatesPending == old(updatesPending) && addsPending == old(addsPending) && removesPending == old(removesPending)
    {
      newGroupName := Some(text);
    }

    /** `handleUpdateName()`: nothing for a blank trimmed name (or an undefined one, whose `trim()`
        throws before any request); otherwise the rename request is made with the trimmed name. */
    method HandleUpdateName() returns (q: Option<Query>)
      modifies this
      ensures newGroupName.None? || Trim(newGroupName.value) == "" ==> q == None && updatesPending == old(updatesPending)
      ensures newGroupName.Some? && Trim(newGroupName.value) != "" ==>
        q == Some(RenameRequest(chatId, Trim(newGroupName.value))) && updatesPending == old(updatesPending) + 1
      ensures q.Some? ==> q.value.body == Json(Undefined)
      ensures chat == old(chat) && allUsers == old(allUsers) && isEditingName == old(isEditingName)
      ensures newGroupName == old(newGroupName) && showAddMembers == old(showAddMembers)
      ensures searchQuery == old(searchQuery) && alerts == old(alerts)
      ensures addsPending == old(addsPending) && removesPending == old(removesPending)
    {
      if newGroupName.None? || Trim(newGroupName.value) == "" {
        return None;
      }
      q := Some(RenameRequest(chatId, Trim(newGroupName.value)));
      updatesPending := updatesPending + 1;
    }

    /** The rename settles: editing closes only on success; a failure shows an alert. */
    method OnUpdateSettled(ok: bool)
      requires updatesPending > 0
      modifies this
      ensures updatesPending == old(updatesPending) - 1
      ensures ok ==> !isEditingName && alerts == old(alerts)
      ensures !ok ==> isEditingName == old(isEditingName) && alerts == old(alerts) + [UpdateFailed]
      ensures chat == old(chat) && allUsers == old(allUsers) && newGroupName == old(newGroupName)
      ensures showAddMembers == old(showAddMembers) && searchQuery == old(searchQuery)
      ensures addsPending == old(addsPending) && removesPending == old(removesPending)
    {
      updatesPending := updatesPending - 1;
      if ok {
        isEditingName := false;
      } else {
        alerts := alerts + [UpdateFailed];
      }
    }

    /** The add button, rendered only for the admin, opens the modal. */
    method OpenAddMembers()
      modifies this
      ensures showAddMembers == (old(showAddMembers) || IsAdmin(chat, me))
      ensures chat == old(chat) && allUsers == old(allUsers) && isEditingName == old(isEditingName)
      ensures newGroupName == old(newGroupName) && searchQuery == old(searchQuery) && alerts == old(alerts)
      ensures updatesPending == old(updatesPending) && addsPending == old(addsPending) && removesPending == old(removesPending)
    {
      if IsAdmin(chat, me) {
        showAddMembers := true;
      }
    }

    /** The modal's close icon. */
    method CloseAddMembers()
      modifies this
      ensures !showAddMembers
      ensures chat == old(chat) && allUsers == old(allUsers) && isEditingName == old(isEditingName)
      ensures newGroupName == old(newGroupName) && searchQuery == old(searchQuery) && alerts == old(alerts)
      ensures updatesPending == old(updatesPending) && addsPending == old(addsPending) && removesPending == old(removesPending)
    {
      showAddMembers := false;
    }

    /** `handleAddMember(userId)`: pressing a candidate row makes the add request. */
    method HandleAddMember(userId: Option<string>) returns (q: Query)
      modifies this
      ensures q == MemberRequest(ChatApi.AddGroupMember, chatId, userId)
      ensures addsPending == old(addsPending) + 1
      ensures chat == old(chat) && allUsers == old(allUsers) && isEditingName == old(isEditingName)
      ensures newGroupName == old(newGroupName) && showAddMembers == old(showAddMembers)
      ensures searchQuery == old(searchQuery) && alerts == old(alerts)
      ensures updatesPending == old(updatesPending) && removesPending == old(removesPending)
    {
      q := MemberRequest(ChatApi.AddGroupMember, chatId, userId);
      addsPending := addsPending + 1;
    }

    /** The add settles: the modal closes only on success; a failure shows an alert. */
    method OnAddSettled(ok: bool)
      requires addsPending > 0
      modifies this
      ensures addsPending == old(addsPending) - 1
      ensures ok ==> !showAddMembers && alerts == old(alerts)
      ensures !ok ==> showAddMembers == old(showAddMembers) && alerts == old(alerts) + [AddFailed]
      ensures chat == old(chat) && allUsers == old(allUsers) && isEditingName == old(isEditingName)
      ensures newGroupName == old(newGroupName) && searchQuery == old(searchQuery)
      ensures updatesPending == old(updatesPending) && removesPending == old(removesPending)
    {
      addsPending := addsPending - 1;
      if ok {
        showAddMembers := false;
      } else {
        alerts := alerts + [AddFailed];
      }
    }

    /** `handleRemoveMember(userId)`: a remove button makes the remove request. */
    method HandleRemoveMember(userId: Option<string>) returns (q: Query)
      modifies this
      ensures q == MemberRequest(ChatApi.RemoveGroupMember, chatId, userId)
      ensures removesPending == old(removesPending) + 1
      ensures chat == old(chat) && allUsers == old(allUsers) && isEditingName == old(isEditingName)
      ensures newGroupName == old(newGroupName) && showAddMembers == old(showAddMembers)
      ensures searchQuery == old(searchQuery) && alerts == old(alerts)
      ensures updatesPending == old(updatesPending) && addsPending == old(addsPending)
    {
      q := MemberRequest(ChatApi.RemoveGroupMember, chatId, userId);
      removesPending := removesPending + 1;
    }

    /** The remove settles: only a failure is visible, as an alert. */
    method OnRemoveSettled(ok: bool)
      requires removesPending > 0
      modifies this
      ensures removesPending == old(removesPending) - 1
      ensures alerts == old(alerts) + (if ok then [] else [RemoveFailed])
      ensures chat == old(chat) && allUsers == old(allUsers) && isEditingName == old(isEditingName)
      ensures newGroupName == old(newGroupName) && showAddMembers == old(showAddMembers)
      ensures searchQuery == old(searchQuery)
      ensures updatesPending == old(updatesPending) && addsPending == old(addsPending)
    {
      removesPending := removesPending - 1;
      if !ok {
        alerts := alerts + [RemoveFailed];
      }
    }
  }
}
