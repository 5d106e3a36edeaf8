/**
 * The client's user slice: the session flags, the cached chat list and the
 * search results, changed in place by the slice's own reducers and by the
 * pending / fulfilled / rejected outcomes of the user thunks. The clock
 * reading `new Date().toISOString()` is a parameter (`now`).
 */
module UserSlice {
  import opened ChatModel

  // ---------------------------------------------------------------------
  // The chat-list cache as a value
  // ---------------------------------------------------------------------

  /** Index of the first entry whose `_id` is `id`, or -1 (`findIndex`). */
  function IndexOfId(list: seq<ChatEntry>, id: UserId): (i: int)
    ensures -1 <= i < |list|
    ensures i == -1 <==> forall k :: 0 <= k < |list| ==> list[k].contact.id != id
    ensures 0 <= i ==> list[i].contact.id == id && forall k :: 0 <= k < i ==> list[k].contact.id != id
  {
    if |list| == 0 then -1
    else if list[0].contact.id == id then 0
    else
      var j := IndexOfId(list[1..], id);
      if j == -1 then -1 else j + 1
  }

  /** The entry `addUserToChatList` builds for a contact not yet listed. */
  function NewEntry(c: Contact, now: Timestamp): ChatEntry
  {
    ChatEntry(c, None, Some(now), None)
  }

  /** The list with position `i` spliced out. */
  function RemoveAt(list: seq<ChatEntry>, i: nat): seq<ChatEntry>
    requires i < |list|
  {
    list[..i] + list[i + 1..]
  }

  /** The chat list after `addUserToChatList`. */
  function WithUserAdded(list: seq<ChatEntry>, c: Contact, now: Timestamp): (after: seq<ChatEntry>)
    ensures |after| - |list| in {0, 1}
    ensures after[|after| - |list|..] == list
    ensures IndexOfId(after, c.id) != -1
  {
    if IndexOfId(list, c.id) != -1 then list else [NewEntry(c, now)] + list
  }

  /** The chat list after `updateLastMessage`. */
  function WithLastMessage(list: seq<ChatEntry>, userId: UserId, message: Option<string>,
                           senderId: Option<UserId>, now: Timestamp): (after: seq<ChatEntry>)
    ensures |after| == |list|
    ensures IndexOfId(list, userId) == -1 ==> after == list
    ensures IndexOfId(list, userId) != -1 ==>
      && after[0].contact == list[IndexOfId(list, userId)].contact
      && after[0].lastMessage == message && after[0].senderId == senderId && after[0].time == Some(now)
  {
    var i := IndexOfId(list, userId);
    if i == -1 then list
    else [list[i].(lastMessage := message, time := Some(now), senderId := senderId)] + RemoveAt(list, i)
  }

  /** The entries whose `_id` is not `id`, in order: an independent
      description of "every other entry". */
  function Without(list: seq<ChatEntry>, id: UserId): seq<ChatEntry>
  {
    if |list| == 0 then []
    else if list[0].contact.id == id then Without(list[1..], id)
    else [list[0]] + Without(list[1..], id)
  }

  /** The set of `_id`s listed. */
  function IdSet(list: seq<ChatEntry>): set<UserId>
  {
    set k | 0 <= k < |list| :: list[k].contact.id
  }

  /** Adding a listed contact changes nothing; adding a new one puts a
      fresh entry (no message, no sender, time `now`) at the front,
      followed by the old list in its order. */
  lemma AddUserToChatListEffect(list: seq<ChatEntry>, c: Contact, now: Timestamp)
    ensures IndexOfId(list, c.id) != -1 ==> WithUserAdded(list, c, now) == list
    ensures IndexOfId(list, c.id) == -1 ==>
      var after := WithUserAdded(list, c, now);
      && |after| == |list| + 1
      && after[0].contact == c
      && after[0].lastMessage.None? && after[0].senderId.None? && after[0].time == Some(now)
      && after[1..] == list
    ensures IdSet(WithUserAdded(list, c, now)) == IdSet(list) + {c.id}
  {
  }

  /** Adding the same contact twice is the same as adding it once. */
  lemma AddUserToChatListIdempotent(list: seq<ChatEntry>, c: Contact, now: Timestamp, later: Timestamp)
    ensures WithUserAdded(WithUserAdded(list, c, now), c, later) == WithUserAdded(list, c, now)
  {
  }

  lemma AddUserToChatListKeepsIdsDistinct(list: seq<ChatEntry>, c: Contact, now: Timestamp)
    requires DistinctIds(list)
    ensures DistinctIds(WithUserAdded(list, c, now))
  {
  }

  /** Position k of the list with position i spliced out. */
  lemma RemoveAtIndex(list: seq<ChatEntry>, i: nat, k: nat)
    requires i < |list| && k < |list| - 1
    ensures RemoveAt(list, i)[k] == if k < i then list[k] else list[k + 1]
  {
  }

  /** With distinct ids, splicing out the entry for `id` leaves exactly the
      other entries in their order. */
  lemma {:induction false} RemoveAtIsWithout(list: seq<ChatEntry>, i: nat)
    requires DistinctIds(list) && i < |list|
    ensures RemoveAt(list, i) == Without(list, list[i].contact.id)
  {
    var id := list[i].contact.id;
    if i == 0 {
      assert RemoveAt(list, 0) == list[1..];
      WithoutAbsent(list[1..], id);
    } else {
      assert list[1..][i - 1] == list[i];
      assert DistinctIds(list[1..]) by {
        forall a, b | 0 <= a < b < |list[1..]| ensures list[1..][a].contact.id != list[1..][b].contact.id {
          assert list[1..][a] == list[a + 1] && list[1..][b] == list[b + 1];
        }
      }
      RemoveAtIsWithout(list[1..], i - 1);
      assert RemoveAt(list, i) == [list[0]] + RemoveAt(list[1..], i - 1);
    }
  }

  /** Removing an id that is not listed removes nothing. */
  lemma {:induction false} WithoutAbsent(list: seq<ChatEntry>, id: UserId)
    requires forall k :: 0 <= k < |list| ==> list[k].contact.id != id
    ensures Without(list, id) == list
  {
    if |list| > 0 {
      assert forall k :: 0 <= k < |list[1..]| ==> list[1..][k] == list[k + 1];
      WithoutAbsent(list[1..], id);
      assert list == [list[0]] + list[1..];
    }
  }

  /** `updateLastMessage` for an unlisted id changes nothing; for a listed
      one the list keeps its length, the entry moves to the front with the
      new message, time and sender and its contact untouched, and the other
      entries follow in their old order. */
  lemma UpdateLastMessageEffect(list: seq<ChatEntry>, userId: UserId, message: Option<string>,
                                senderId: Option<UserId>, now: Timestamp)
    ensures IndexOfId(list, userId) == -1 ==> WithLastMessage(list, userId, message, senderId, now) == list
    ensures IndexOfId(list, userId) != -1 ==>
      var i := IndexOfId(list, userId);
      var after := WithLastMessage(list, userId, message, senderId, now);
      && |after| == |list|
      && after[0].contact == list[i].contact
      && after[0].contact.id == userId
      && after[0].lastMessage == message && after[0].senderId == senderId && after[0].time == Some(now)
      && after[1..] == RemoveAt(list, i)
      && (DistinctIds(list) ==> after[1..] == Without(list, userId))
  {
    var i := IndexOfId(list, userId);
    if i != -1 {
      var after := WithLastMessage(list, userId, message, senderId, now);
      assert after[1..] == RemoveAt(list, i);
      if DistinctIds(list) {
        RemoveAtIsWithout(list, i);
      }
    }
  }

  /** Where position k of the updated list was before the update: the
      moved entry came from `i`, the others shift by at most one. */
  function SourcePosition(i: nat, k: nat): nat
  {
    if k == 0 then i else if k <= i then k - 1 else k
  }

  lemma WithLastMessageAt(list: seq<ChatEntry>, userId: UserId, message: Option<string>,
                          senderId: Option<UserId>, now: Timestamp, k: nat)
    requires IndexOfId(list, userId) != -1 && k < |list|
    ensures var i := IndexOfId(list, userId);
      var after := WithLastMessage(list, userId, message, senderId, now);
      && |after| == |list|
      && SourcePosition(i, k) < |list|
      && after[k].contact == list[SourcePosition(i, k)].contact
  {
  }

  lemma UpdateLastMessageKeepsIdsDistinct(list: seq<ChatEntry>, userId: UserId, message: Option<string>,
                                          senderId: Option<UserId>, now: Timestamp)
    requires DistinctIds(list)
    ensures DistinctIds(WithLastMessage(list, userId, message, senderId, now))
  {
  }

  lemma UpdateLastMessageKeepsIdSet(list: seq<ChatEntry>, userId: UserId, message: Option<string>,
                                    senderId: Option<UserId>, now: Timestamp)
    ensures IdSet(WithLastMessage(list, userId, message, senderId, now)) == IdSet(list)
  {
    var i := IndexOfId(list, userId);
    if i != -1 {
      var after := WithLastMessage(list, userId, message, senderId, now);
      forall x | x in IdSet(after) ensures x in IdSet(list) {
        var k :| 0 <= k < |after| && after[k].contact.id == x;
        WithLastMessageAt(list, userId, message, senderId, now, k);
      }
      forall x | x in IdSet(list) ensures x in IdSet(after) {
        var k :| 0 <= k < |list| && list[k].contact.id == x;
        var pos := if k == i then 0 else if k < i then k + 1 else k;
        WithLastMessageAt(list, userId, message, senderId, now, pos);
        assert SourcePosition(i, pos) == k;
      }
    }
  }

  // ---------------------------------------------------------------------
  // The slice state and its actions
  // ---------------------------------------------------------------------

  datatype SliceState = SliceState(
    isAuthenticated: bool,
    user: Option<Profile>,
    chatUsers: seq<ChatEntry>,
    searchResults: seq<Profile>,
    loading: bool,
    selectedUser: Option<Contact>,
    screenLoading: bool,
    chatUsersLoading: bool,
    searchLoading: bool,
    error: Option<string>)

  const InitialState: SliceState :=
    SliceState(false, None, [], [], false, None, true, false, false, None)

  /** Every action the slice handles; a rejected thunk's payload is optional. */
  datatype Action =
    | SetSelectUser(selected: Option<Contact>)
    | ClearSearchResults
    | AddUserToChatList(newUser: Contact, now: Timestamp)
    | UpdateLastMessage(userId: UserId, message: Option<string>, senderId: Option<UserId>, now: Timestamp)
    | LoginPending | LoginFulfilled | LoginRejected(loginError: Option<string>)
    | SignupPending | SignupFulfilled | SignupRejected(signupError: Option<string>)
    | ProfilePending | ProfileFulfilled(profile: Profile) | ProfileRejected(profileError: Option<string>)
    | LogoutPending | LogoutFulfilled | LogoutRejected(logoutError: Option<string>)
    | ChatUsersPending | ChatUsersFulfilled(entries: seq<ChatEntry>) | ChatUsersRejected(chatUsersError: Option<string>)
    | SearchPending | SearchFulfilled(results: seq<Profile>) | SearchRejected(searchError: Option<string>)

  /** The state after one action (the slice's reducer, read as a function). */
  function Reduce(s: SliceState, a: Action): (r: SliceState)
    // which actions may touch which part of the state
    ensures r.chatUsers != s.chatUsers ==>
      a.AddUserToChatList? || a.UpdateLastMessage? || a.LogoutFulfilled? || a.ChatUsersFulfilled?
    ensures r.searchResults != s.searchResults ==> a.ClearSearchResults? || a.SearchFulfilled?
    ensures r.selectedUser != s.selectedUser ==> a.SetSelectUser? || a.LogoutFulfilled?
    ensures r.user != s.user ==> a.ProfileFulfilled? || a.LogoutFulfilled?
    ensures r.screenLoading != s.screenLoading ==> a.ProfileFulfilled? || a.ProfileRejected?
    // the slice's own reducers leave the session untouched
    ensures IsChatListAction(a) ==>
      r.isAuthenticated == s.isAuthenticated && r.user == s.user && r.error == s.error && r.loading == s.loading
    // every rejection records a non-empty message
    ensures (|| a.LoginRejected? || a.SignupRejected? || a.ProfileRejected?
             || a.LogoutRejected? || a.ChatUsersRejected? || a.SearchRejected?)
      ==> r.error.Some? && r.error.value != ""
  {
    match a
    case SetSelectUser(selected) => s.(selectedUser := selected)
    case ClearSearchResults => s.(searchResults := [])
    case AddUserToChatList(c, now) => s.(chatUsers := WithUserAdded(s.chatUsers, c, now))
    case UpdateLastMessage(id, message, sender, now) =>
      s.(chatUsers := WithLastMessage(s.chatUsers, id, message, sender, now))
    case LoginPending => s.(loading := true, error := None)
    case LoginFulfilled => s.(loading := false, isAuthenticated := true, error := None)
    case LoginRejected(p) =>
      s.(loading := false, error := Some(OrElse(p, "Failed to login")), isAuthenticated := false)
    case SignupPending => s.(loading := true, error := None)
    case SignupFulfilled => s.(loading := false, error := None)
    case SignupRejected(p) =>
      s.(loading := false, error := Some(OrElse(p, "Failed to signup")), isAuthenticated := false)
    case ProfilePending => s
    case ProfileFulfilled(profile) =>
      s.(screenLoading := false, user := Some(profile), isAuthenticated := true, error := None)
    case ProfileRejected(p) =>
      s.(screenLoading := false, error := Some(OrElse(p, "Failed to get profile")), isAuthenticated := false)
    case LogoutPending => s.(loading := true)
    case LogoutFulfilled =>
      s.(loading := false, isAuthenticated := false, user := None, chatUsers := [],
         selectedUser := None, error := None)
    case LogoutRejected(p) => s.(loading := false, error := Some(OrElse(p, "Failed to logout")))
    case ChatUsersPending => s.(chatUsersLoading := true, error := None)
    case ChatUsersFulfilled(entries) => s.(chatUsersLoading := false, chatUsers := entries, error := None)
    case ChatUsersRejected(p) =>
      s.(chatUsersLoading := false, error := Some(OrElse(p, "Failed to load chat users")))
    case SearchPending => s.(searchLoading := true, error := None)
    case SearchFulfilled(results) => s.(searchLoading := false, searchResults := results, error := None)
    case SearchRejected(p) =>
      s.(searchLoading := false, error := Some(OrElse(p, "Failed to search users")))
  }

  /** The state after a sequence of actions, dispatched in order. */
  function Run(s: SliceState, trace: seq<Action>): SliceState
  {
    if |trace| == 0 then s else Reduce(Run(s, trace[..|trace| - 1]), trace[|trace| - 1])
  }

  /** A successful logout ends the session and empties the cached chat
      list; the last search results are kept. */
  lemma LogoutClearsSession(s: SliceState)
    ensures var out := Reduce(s, LogoutFulfilled);
      && !out.isAuthenticated && out.user.None? && out.selectedUser.None? && out.error.None?
      && out.chatUsers == [] && !out.loading
      && out.searchResults == s.searchResults
  {
  }

  /** A fetched chat list replaces the cache wholesale. */
  lemma FetchReplacesChatList(s: SliceState, entries: seq<ChatEntry>)
    ensures var fetched := Reduce(s, ChatUsersFulfilled(entries));
      && fetched.chatUsers == entries && !fetched.chatUsersLoading && fetched.error.None?
      && fetched.isAuthenticated == s.isAuthenticated && fetched.user == s.user
  {
  }

  /** A failed login records the thunk's message, or "Failed to login" when
      it gave none, and leaves the client unauthenticated. */
  lemma LoginFailureMessage(s: SliceState, p: Option<string>)
    ensures var failed := Reduce(s, LoginRejected(p));
      && !failed.isAuthenticated && !failed.loading
      && failed.error == Some(if Given(p) then p.value else "Failed to login")
  {
  }

  /** The last action of a trace that settles `isAuthenticated`. */
  predicate SettlesAuth(a: Action)
  {
    a.LoginFulfilled? || a.LoginRejected? || a.SignupRejected? ||
    a.ProfileFulfilled? || a.ProfileRejected? || a.LogoutFulfilled?
  }

  function LastAuthOutcome(trace: seq<Action>): Option<Action>
  {
    if |trace| == 0 then None
    else if SettlesAuth(trace[|trace| - 1]) then Some(trace[|trace| - 1])
    else LastAuthOutcome(trace[..|trace| - 1])
  }

  /** The client is authenticated exactly when the last login / signup /
      profile / logout outcome was a fulfilled login or a fulfilled profile
      fetch; with no such outcome the flag is where it started. */
  lemma {:induction false} AuthenticatedFollowsLastOutcome(s: SliceState, trace: seq<Action>)
    ensures Run(s, trace).isAuthenticated ==
      match LastAuthOutcome(trace)
      case None => s.isAuthenticated
      case Some(a) => a.LoginFulfilled? || a.ProfileFulfilled?
  {
    if |trace| > 0 {
      var init, a := trace[..|trace| - 1], trace[|trace| - 1];
      AuthenticatedFollowsLastOutcome(s, init);
      ReduceSettlesAuth(Run(s, init), a);
    }
  }

  /** One action either settles `isAuthenticated` or leaves it alone. */
  lemma ReduceSettlesAuth(s: SliceState, a: Action)
    ensures Reduce(s, a).isAuthenticated ==
      if SettlesAuth(a) then a.LoginFulfilled? || a.ProfileFulfilled? else s.isAuthenticated
  {
  }

  predicate IsChatUsersEvent(a: Action)
  {
    a.ChatUsersPending? || a.ChatUsersFulfilled? || a.ChatUsersRejected?
  }

  function LastChatUsersEvent(trace: seq<Action>): Option<Action>
  {
    if |trace| == 0 then None
    else if IsChatUsersEvent(trace[|trace| - 1]) then Some(trace[|trace| - 1])
    else LastChatUsersEvent(trace[..|trace| - 1])
  }

  /** The chat-list spinner is on exactly while the latest getChatUsers
      request is still pending. */
  lemma {:induction false} ChatUsersLoadingFollowsLastEvent(s: SliceState, trace: seq<Action>)
    ensures Run(s, trace).chatUsersLoading ==
      match LastChatUsersEvent(trace)
      case None => s.chatUsersLoading
      case Some(a) => a.ChatUsersPending?
  {
    if |trace| > 0 {
      var init, a := trace[..|trace| - 1], trace[|trace| - 1];
      ChatUsersLoadingFollowsLastEvent(s, init);
      ReduceChatUsersLoading(Run(s, init), a);
    }
  }

  /** One action either settles `chatUsersLoading` or leaves it alone. */
  lemma ReduceChatUsersLoading(s: SliceState, a: Action)
    ensures Reduce(s, a).chatUsersLoading ==
      if IsChatUsersEvent(a) then a.ChatUsersPending? else s.chatUsersLoading
  {
  }

  /** If the cache starts with distinct ids and every fetched chat list has
      distinct ids, the cache never lists an `_id` twice, whatever the order
      of adds, message updates, logouts and fetches. */
  lemma {:induction false} ChatUsersStayDistinct(s: SliceState, trace: seq<Action>)
    requires DistinctIds(s.chatUsers)
    requires forall k :: 0 <= k < |trace| && trace[k].ChatUsersFulfilled? ==> DistinctIds(trace[k].entries)
    ensures DistinctIds(Run(s, trace).chatUsers)
  {
    if |trace| > 0 {
      var init := trace[..|trace| - 1];
      assert forall k :: 0 <= k < |init| ==> init[k] == trace[k];
      ChatUsersStayDistinct(s, init);
      ReduceKeepsIdsDistinct(Run(s, init), trace[|trace| - 1]);
    }
  }

  /** One action keeps the cache's ids distinct, given a fetched list has them. */
  lemma ReduceKeepsIdsDistinct(s: SliceState, a: Action)
    requires DistinctIds(s.chatUsers)
    requires a.ChatUsersFulfilled? ==> DistinctIds(a.entries)
    ensures DistinctIds(Reduce(s, a).chatUsers)
  {
    match a
    case AddUserToChatList(c, now) =>
      AddUserToChatListKeepsIdsDistinct(s.chatUsers, c, now);
    case UpdateLastMessage(id, message, sender, now) =>
      UpdateLastMessageKeepsIdsDistinct(s.chatUsers, id, message, sender, now);
    case _ =>
  }

  predicate IsChatListAction(a: Action)
  {
    a.SetSelectUser? || a.ClearSearchResults? || a.AddUserToChatList? || a.UpdateLastMessage?
  }

  predicate IsSessionAction(a: Action)
  {
    || a.LoginPending? || a.LoginFulfilled? || a.LoginRejected?
    || a.SignupPending? || a.SignupFulfilled? || a.SignupRejected?
    || a.ProfilePending? || a.ProfileFulfilled? || a.ProfileRejected?
    || a.LogoutPending? || a.LogoutFulfilled? || a.LogoutRejected?
  }

  predicate IsFetchAction(a: Action)
  {
    !IsChatListAction(a) && !IsSessionAction(a)
  }

  // ---------------------------------------------------------------------
  // The slice as mutable state
  // ---------------------------------------------------------------------

  /** `chatUsers.findIndex(user => user._id === id)` */
  method FindIndex(list: seq<ChatEntry>, id: UserId) returns (i: int)
    ensures i == IndexOfId(list, id)
  {
    i := 0;
    while i < |list|
      invariant 0 <= i <= |list|
      invariant forall k :: 0 <= k < i ==> list[k].contact.id != id
    {
      if list[i].contact.id == id {
        return;
      }
      i := i + 1;
    }
    i := -1;
  }

  class Slice {
    var isAuthenticated: bool
    var user: Option<Profile>
    var chatUsers: seq<ChatEntry>
    var searchResults: seq<Profile>
    var loading: bool
    var selectedUser: Option<Contact>
    var screenLoading: bool
    var chatUsersLoading: bool
    var searchLoading: bool
    var error: Option<string>

    /** The slice's fields as one value. */
    function Snapshot(): SliceState
      reads this
    {
      SliceState(isAuthenticated, user, chatUsers, searchResults, loading, selectedUser,
                 screenLoading, chatUsersLoading, searchLoading, error)
    }

    constructor ()
      ensures Snapshot() == InitialState
    {
      isAuthenticated, user, chatUsers, searchResults := false, None, [], [];
      loading, selectedUser, screenLoading := false, None, true;
      chatUsersLoading, searchLoading, error := false, false, None;
    }

    /** addUserToChatList: unshift a new entry unless the `_id` is listed. */
    method AddUserToChatList(newUser: Contact, now: Timestamp)
      modifies this
      ensures chatUsers == WithUserAdded(old(chatUsers), newUser, now)
      ensures Snapshot() == old(Snapshot()).(chatUsers := chatUsers)
    {
      var existing := FindIndex(chatUsers, newUser.id);
      if existing == -1 {
        chatUsers := [NewEntry(newUser, now)] + chatUsers;
      }
    }

    /** updateLastMessage: overwrite the entry's message fields, splice it
        out and unshift it. */
    method UpdateLastMessage(userId: UserId, message: Option<string>, senderId: Option<UserId>, now: Timestamp)
      modifies this
      ensures chatUsers == WithLastMessage(old(chatUsers), userId, message, senderId, now)
      ensures Snapshot() == old(Snapshot()).(chatUsers := chatUsers)
    {
      var userIndex := FindIndex(chatUsers, userId);
      if userIndex != -1 {
        var entry := chatUsers[userIndex].(lastMessage := message, time := Some(now), senderId := senderId);
        chatUsers := chatUsers[userIndex := entry];
        chatUsers := chatUsers[..userIndex] + chatUsers[userIndex + 1..];
        chatUsers := [entry] + chatUsers;
      }
    }

    /** Dispatches one action to the slice, changing its fields in place. */
    method Dispatch(a: Action)
      modifies this
      ensures Snapshot() == Reduce(old(Snapshot()), a)
    {
      if IsChatListAction(a) {
        ApplyChatListAction(a);
      } else if IsSessionAction(a) {
        ApplySessionAction(a);
      } else {
        ApplyFetchAction(a);
      }
    }

    /** The slice's own reducers. */
    method ApplyChatListAction(a: Action)
      requires IsChatListAction(a)
      modifies this
      ensures Snapshot() == Reduce(old(Snapshot()), a)
    {
      match a
      case SetSelectUser(selected) =>
        selectedUser := selected;
      case ClearSearchResults =>
        searchResults := [];
      case AddUserToChatList(c, now) =>
        AddUserToChatList(c, now);
      case UpdateLastMessage(id, message, sender, now) =>
        UpdateLastMessage(id, message, sender, now);
      case _ =>
    }

    /** Outcomes of the login, signup, profile and logout thunks. */
    method ApplySessionAction(a: Action)
      requires IsSessionAction(a)
      modifies this
      ensures Snapshot() == Reduce(old(Snapshot()), a)
    {
      match a
      case LoginPending =>
        loading := true;
        error := None;
      case LoginFulfilled =>
        loading := false;
        isAuthenticated := true;
        error := None;
      case LoginRejected(p) =>
        loading := false;
        error := Some(OrElse(p, "Failed to login"));
        isAuthenticated := false;
      case SignupPending =>
        loading := true;
        error := None;
      case SignupFulfilled =>
        loading := false;
        error := None;
      case SignupRejected(p) =>
        loading := false;
        error := Some(OrElse(p, "Failed to signup"));
        isAuthenticated := false;
      case ProfilePending =>
      case ProfileFulfilled(profile) =>
        screenLoading := false;
        user := Some(profile);
        isAuthenticated := true;
        error := None;
      case ProfileRejected(p) =>
        screenLoading := false;
        error := Some(OrElse(p, "Failed to get profile"));
        isAuthenticated := false;
      case LogoutPending =>
        loading := true;
      case LogoutFulfilled =>
        loading := false;
        isAuthenticated := false;
        user := None;
        chatUsers := [];
        selectedUser := None;
        error := None;
      case LogoutRejected(p) =>
        loading := false;
        error := Some(OrElse(p, "Failed to logout"));
      case _ =>
    }

    /** Outcomes of the chat-list and search thunks. */
    method ApplyFetchAction(a: Action)
      requires IsFetchAction(a)
      modifies this
      ensures Snapshot() == Reduce(old(Snapshot()), a)
    {
      match a
      case ChatUsersPending =>
        chatUsersLoading := true;
        error := None;
      case ChatUsersFulfilled(entries) =>
        chatUsersLoading := false;
        chatUsers := entries;
        error := None;
      case ChatUsersRejected(p) =>
        chatUsersLoading := false;
        error := Some(OrElse(p, "Failed to load chat users"));
      case SearchPending =>
        searchLoading := true;
        error := None;
      case SearchFulfilled(results) =>
        searchLoading := false;
        searchResults := results;
        error := None;
      case SearchRejected(p) =>
        searchLoading := false;
        error := Some(OrElse(p, "Failed to search users"));
      case _ =>
    }
  }
}
