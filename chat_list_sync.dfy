/**
 * How the server's chat list and the client's cached copy fit together:
 * the cache is seeded from getChatUsers replies and then kept fresh by
 * addUserToChatList and updateLastMessage.
 */
module ChatListSync {
  import opened ChatModel
  import UserController
  import UserSlice

  /** A chat list the server can send this viewer: the aggregation over a
      store that keeps one conversation per pair. */
  ghost predicate ServedChatList(viewer: UserId, entries: seq<ChatEntry>)
  {
    exists convs :: UserController.PairwiseStore(viewer, convs) && entries == UserController.ChatEntries(viewer, convs)
  }

  /** Starting from the initial state, if every chat list the client fetches
      is one the server serves (to whichever viewer asked), the cache never
      lists a counterpart twice, whatever adds, message updates, logouts and
      searches come between. */
  lemma CachedChatListHasDistinctIds(trace: seq<UserSlice.Action>)
    requires forall k :: 0 <= k < |trace| && trace[k].ChatUsersFulfilled? ==>
      exists viewer :: ServedChatList(viewer, trace[k].entries)
    ensures DistinctIds(UserSlice.Run(UserSlice.InitialState, trace).chatUsers)
  {
    forall k | 0 <= k < |trace| && trace[k].ChatUsersFulfilled?
      ensures DistinctIds(trace[k].entries)
    {
      var viewer :| ServedChatList(viewer, trace[k].entries);
      var convs :| UserController.PairwiseStore(viewer, convs) && trace[k].entries == UserController.ChatEntries(viewer, convs);
      UserController.ChatEntriesDistinct(viewer, convs);
    }
    UserSlice.ChatUsersStayDistinct(UserSlice.InitialState, trace);
  }

  /** The entry updateLastMessage moves to the front against the entry the
      server derives once the new message is stored as the conversation's
      newest, at `serverTime`: the contact and the sender always agree; the
      body agrees unless it is empty (the client keeps `""`, the server
      reads an empty body as null); the time agrees exactly when the
      client's clock reading equals the stored `createdAt`. */
  lemma UpdateMatchesReaggregation(list: seq<ChatEntry>, other: Contact, messages: seq<UserController.Message>,
                                   body: string, sender: UserId, now: Timestamp, serverTime: Timestamp)
    requires UserSlice.IndexOfId(list, other.id) != -1
    requires list[UserSlice.IndexOfId(list, other.id)] == UserController.EntryFor(other, messages)
    ensures var client := UserSlice.WithLastMessage(list, other.id, Some(body), Some(sender), now)[0];
      var server := UserController.EntryFor(other, [UserController.Message(body, serverTime, Some(sender))] + messages);
      && client.contact == server.contact
      && client.senderId == server.senderId
      && (body != "" ==> client.lastMessage == server.lastMessage)
      && (body == "" ==> client.lastMessage == Some("") && server.lastMessage.None?)
      && (client.time == server.time <==> serverTime == now)
  {
  }
}
