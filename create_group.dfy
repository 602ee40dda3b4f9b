/** The create-group screen of `src/views/Chat/components/CreateGroup.js`: the
    search filter over the user list, the selection of members without
    duplicate ids, and the validation run by the Create Group button. */
module CreateGroup {
  import opened Common
  import opened Auth

  const TitleMissing: string := "Please enter group title"
  const TooFewMembers: string := "Please select at least 2 members"

  /** Some selected user has this `_id` (`selectedUsers.some(u => u._id === id)`); two missing ids
      are equal, as `undefined === undefined`. */
  predicate IsSelected(selected: seq<ListedUser>, id: Option<string>) {
    exists i :: 0 <= i < |selected| && selected[i].id == id
  }

  /** No two selected users share an `_id`. */
  predicate DistinctIds(selected: seq<ListedUser>) {
    forall i, j :: 0 <= i < j < |selected| ==> selected[i].id != selected[j].id
  }

  /** The search effect: with a loaded user list, the users whose name contains the query, case
      insensitively, in list order; without one, the previous result is kept. */
  function SearchResults(users: Option<seq<ListedUser>>, query: string, previous: seq<ListedUser>): (r: seq<ListedUser>)
    ensures users.None? ==> r == previous
    ensures users.Some? ==> forall u :: u in r <==> u in users.value && MatchesQuery(u.username, query)
  {
    if users.Some? then Filter(users.value, (u: ListedUser) => MatchesQuery(u.username, query)) else previous
  }

  /** An empty query lists every loaded user. */
  lemma EmptySearchListsEveryone(users: seq<ListedUser>, previous: seq<ListedUser>)
    ensures SearchResults(Some(users), "", previous) == users
  {
    forall u | u in users
      ensures MatchesQuery(u.username, "")
    {
      EmptyQueryMatchesAll(u.username);
    }
    FilterAll(users, (u: ListedUser) => MatchesQuery(u.username, ""));
  }

  /** `handleUserSelect(user)`: the user is appended unless one with the same `_id` is selected. */
  function AddSelection(selected: seq<ListedUser>, user: ListedUser): (r: seq<ListedUser>)
    ensures IsSelected(r, user.id)
    ensures IsSelected(selected, user.id) ==> r == selected
    ensures !IsSelected(selected, user.id) ==> r == selected + [user]
    ensures DistinctIds(selected) ==> DistinctIds(r)
  {
    if IsSelected(selected, user.id) then selected
    else
      var r := selected + [user];
      assert r[|selected|].id == user.id;
      r
  }

  /** Selecting the same user twice is selecting once. */
  lemma SelectIsIdempotent(selected: seq<ListedUser>, user: ListedUser)
    ensures AddSelection(AddSelection(selected, user), user) == AddSelection(selected, user)
  {
  }

  /** `handleUserRemove(id)`: every selected user with that `_id` goes, the others stay in order. */
  function RemoveSelection(selected: seq<ListedUser>, id: Option<string>): (r: seq<ListedUser>)
    ensures forall u :: u in r <==> u in selected && u.id != id
    ensures !IsSelected(r, id)
  {
    Filter(selected, (u: ListedUser) => u.id != id)
  }

  /** Removing a user that was just added, when no selected user had its id, restores the selection. */
  lemma {:induction false} RemoveUndoesAdd(selected: seq<ListedUser>, user: ListedUser)
    requires !IsSelected(selected, user.id)
    ensures RemoveSelection(AddSelection(selected, user), user.id) == selected
  {
    var keep := (u: ListedUser) => u.id != user.id;
    FilterAppend(selected, [user], keep);
    forall u | u in selected
      ensures keep(u)
    {
      var i :| 0 <= i < |selected| && selected[i] == u;
    }
    FilterAll(selected, keep);
    FilterSingleton(user, keep);
  }

  /** How `renderUserItem` draws a row of the user list: `isSelected` gives the selected style,
      the check icon and `disabled`. */
  datatype Row = Row(highlighted: bool, checkIcon: bool, disabled: bool)

  function RowFor(selected: seq<ListedUser>, item: ListedUser): (r: Row)
    ensures r.disabled <==> IsSelected(selected, item.id)
    ensures r.highlighted == r.disabled && r.checkIcon == r.disabled
  {
    var isSelected := IsSelected(selected, item.id);
    Row(isSelected, isSelected, isSelected)
  }

  /** A row that is not disabled appends exactly its user when pressed, and is disabled from then
      on, so the same row cannot add the user twice; the press a disabled row would have made
      changes nothing. */
  lemma DisabledRowsCannotSelect(selected: seq<ListedUser>, item: ListedUser)
    ensures !RowFor(selected, item).disabled ==> AddSelection(selected, item) == selected + [item]
    ensures RowFor(AddSelection(selected, item), item).disabled
    ensures RowFor(selected, item).disabled ==> AddSelection(selected, item) == selected
  {
  }

  datatype Validation = Rejected(message: string) | Proceed(title: string, members: seq<ListedUser>)

  /** `handleCreateGroup()`: a blank trimmed title is rejected first, then fewer than two members;
      otherwise the trimmed title and the selected members pass, to be logged. */
  function ValidateGroup(groupTitle: string, selected: seq<ListedUser>): (r: Validation)
    ensures r.Rejected? <==> AllWhitespace(groupTitle) || |selected| < 2
    ensures AllWhitespace(groupTitle) ==> r == Rejected(TitleMissing)
    ensures !AllWhitespace(groupTitle) && |selected| < 2 ==> r == Rejected(TooFewMembers)
    ensures r.Proceed? ==> r.title == Trim(groupTitle) && r.title != "" && r.members == selected
  {
    BlankIff(groupTitle);
    if Trim(groupTitle) == "" then Rejected(TitleMissing)
    else if |selected| < 2 then Rejected(TooFewMembers)
    else Proceed(Trim(groupTitle), selected)
  }

  class CreateGroupScreen {
    var searchQuery: string
    var selectedUsers: seq<ListedUser>
    var filteredUsers: seq<ListedUser>
    var groupTitle: string
    /** `data?.users` of the user-list query, once loaded. */
    var users: Option<seq<ListedUser>>
    /** Error toasts shown, in order. */
    var toasts: seq<string>
    /** The `console.log('Creating group:', ...)` calls of the button, in order: a group that passes
        validation is only logged; no create request is made. */
    var logged: seq<Validation>

    ghost predicate Valid()
      reads this
    {
      DistinctIds(selectedUsers)
    }

    constructor ()
      ensures Valid()
      ensures searchQuery == "" && selectedUsers == [] && filteredUsers == [] && groupTitle == ""
      ensures users == None && toasts == [] && logged == []
    {
      searchQuery := "";
      selectedUsers := [];
      filteredUsers := [];
      groupTitle := "";
      users := None;
      toasts := [];
      logged := [];
    }

    /** The user list arrives; the search effect runs. */
    method OnUsersLoaded(data: Option<seq<ListedUser>>)
      requires Valid()
      modifies this
      ensures Valid()
      ensures users == data && filteredUsers == SearchResults(data, searchQuery, old(filteredUsers))
      ensures searchQuery == old(searchQuery) && selectedUsers == old(selectedUsers) && groupTitle == old(groupTitle)
      ensures toasts == old(toasts) && logged == old(logged)
    {
      users := data;
      filteredUsers := SearchResults(users, searchQuery, filteredUsers);
    }

    /** The search box changes; the search effect runs. */
    method SetSearchQuery(query: string)
      requires Valid()
      modifies this
      ensures Valid()
      ensures searchQuery == query && filteredUsers == SearchResults(users, query, old(filteredUsers))
      ensures users == old(users) && selectedUsers == old(selectedUsers) && groupTitle == old(groupTitle)
      ensures toasts == old(toasts) && logged == old(logged)
    {
      searchQuery := query;
      filteredUsers := SearchResults(users, searchQuery, filteredUsers);
    }

    method SetGroupTitle(title: string)
      requires Valid()
      modifies this
      ensures Valid()
      ensures groupTitle == title
      ensures searchQuery == old(searchQuery) && users == old(users) && selectedUsers == old(selectedUsers)
      ensures filteredUsers == old(filteredUsers) && toasts == old(toasts) && logged == old(logged)
    {
      groupTitle := title;
    }

    /** A row of the list is pressed; a disabled (already selected) row does nothing. */
    method HandleUserSelect(user: ListedUser)
      requires Valid()
      modifies this
      ensures Valid()
      ensures selectedUsers == AddSelection(old(selectedUsers), user)
      ensures searchQuery == old(searchQuery) && users == old(users) && groupTitle == old(groupTitle)
      ensures filteredUsers == old(filteredUsers) && toasts == old(toasts) && logged == old(logged)
    {
      if !IsSelected(selectedUsers, user.id) {
        selectedUsers := selectedUsers + [user];
      }
    }

    /** The close icon of a chip is pressed. */
    method HandleUserRemove(id: Option<string>)
      requires Valid()
      modifies this
      ensures Valid()
      ensures selectedUsers == RemoveSelection(old(selectedUsers), id)
      ensures searchQuery == old(searchQuery) && users == old(users) && groupTitle == old(groupTitle)
      ensures filteredUsers == old(filteredUsers) && toasts == old(toasts) && logged == old(logged)
    {
      FilterKeepsDistinct(selectedUsers, (u: ListedUser) => u.id != id);
      selectedUsers := Filter(selectedUsers, (u: ListedUser) => u.id != id);
    }

    /** The Create Group button: a rejection shows its message as an error toast; otherwise the
        trimmed title and the selected members are logged, and nothing is sent. */
    method HandleCreateGroup() returns (r: Validation)
      requires Valid()
      modifies this
      ensures Valid()
      ensures r == ValidateGroup(old(groupTitle), old(selectedUsers))
      ensures r.Rejected? ==> toasts == old(toasts) + [r.message] && logged == old(logged)
      ensures r.Proceed? ==> toasts == old(toasts) && logged == old(logged) + [r]
      ensures searchQuery == old(searchQuery) && users == old(users) && groupTitle == old(groupTitle)
      ensures filteredUsers == old(filteredUsers) && selectedUsers == old(selectedUsers)
    {
      BlankIff(groupTitle);
      if Trim(groupTitle) == "" {
        toasts := toasts + [TitleMissing];
        return Rejected(TitleMissing);
      }
      if |selectedUsers| < 2 {
        toasts := toasts + [TooFewMembers];
        return Rejected(TooFewMembers);
      }
      r := Proceed(Trim(groupTitle), selectedUsers);
      logged := logged + [r];
    }
  }

  /** Filtering keeps a selection free of duplicate ids: the result is a subsequence. */
  lemma {:induction false} FilterKeepsDistinct(s: seq<ListedUser>, p: ListedUser -> bool)
    requires DistinctIds(s)
    ensures DistinctIds(Filter(s, p))
    decreases |s|
  {
    if s != [] {
      assert DistinctIds(s[1..]);
      FilterKeepsDistinct(s[1..], p);
      var rest := Filter(s[1..], p);
      HeadIdNotInTail(s, p);
      if p(s[0]) {
        assert Filter(s, p) == [s[0]] + rest;
        ConsKeepsDistinct(s[0], rest);
      } else {
        assert Filter(s, p) == rest;
      }
    }
  }

  lemma ConsKeepsDistinct(h: ListedUser, rest: seq<ListedUser>)
    requires DistinctIds(rest)
    requires forall x :: x in rest ==> x.id != h.id
    ensures DistinctIds([h] + rest)
  {
    var r := [h] + rest;
    forall i, j | 0 <= i < j < |r|
      ensures r[i].id != r[j].id
    {
      assert r[j] == rest[j - 1] && r[j] in rest;
      if i > 0 {
        assert r[i] == rest[i - 1];
      }
    }
  }

  lemma HeadIdNotInTail(s: seq<ListedUser>, p: ListedUser -> bool)
    requires DistinctIds(s) && s != []
    ensures forall x :: x in Filter(s[1..], p) ==> x.id != s[0].id
  {
    forall x | x in Filter(s[1..], p)
      ensures x.id != s[0].id
    {
      assert x in s[1..];
      var k :| 0 <= k < |s[1..]| && s[1..][k] == x;
      assert s[k + 1] == x;
    }
  }
}
