# Chat list and user requests of a real-time messaging app, in Dafny

This project models the core of a direct-messaging app: the per-user chat
list (one entry per counterpart, with the last message) and the user
requests around it.

- **Server, user controller** (`user_controller.dfy`, module `UserController`).
  It covers the validation and error order of `registerUser`, `loginUser`,
  `getProfile`, `searchUser`, `logout` and `getChatUsers`, the avatar URL
  chosen at registration, and the username projection of `getAllUsernames`.
  It also covers the `getChatUsers` aggregation: a loop over the viewer's
  conversations that pushes one entry per conversation that has a
  counterpart. Store queries are inputs. The user directory is a sequence of
  user documents in store order, and `findOne`/`findById` return the first
  match. A query that can come back null is an `Option`. Conversations arrive
  with participants populated and messages sorted newest-first.
- **Client, user slice** (`user_slice.dfy`, module `UserSlice`). It covers the
  Redux slice's state, the in-place reducers `addUserToChatList` and
  `updateLastMessage` (unshift, splice), `setSelectUser`,
  `clearSearchResults`, and every `extraReducers` case of the login, signup,
  profile, logout, chat-list and search thunks. The class `Slice` holds the
  fields and its methods change them in place. `Reduce` states the same
  transitions as a function of the old state, and the lemmas about traces
  are stated on `Run`.
- **Shared records** (`chat_model.dfy`, module `ChatModel`) and the link
  between server replies and the client cache (`chat_list_sync.dfy`, module
  `ChatListSync`).

Modelling choices:

- JavaScript truthiness is written out. A request field is "given" when it
  is present and not `""`. `x || fallback` on an optional string is
  `OrElse`. In `getChatUsers`, `lastMessage?.message || null` turns an
  empty message body into null. `createdAt` is a Date and is always truthy,
  so it is always copied. A user id from the request (`req.user?._id`) is
  falsy when missing or `""` (`IdGiven`); every handler tests it that way.
- One might expect the chat list to be ordered by time, newest first.
  The code does no sorting: `getChatUsers` keeps the store's conversation
  order. The model follows the code; `ChatEntriesNotSortedByTime` shows an
  older conversation listed before a newer one.
- Redux applies reducers to an Immer draft, so an entry object changed in
  place is never shared with another part of the state. Entries are
  therefore values, and the field assignments of `updateLastMessage` are a
  datatype update followed by the splice and the unshift.
- Clock readings (`new Date()`) are parameters named `now`. The bcrypt
  comparison in `loginUser` is a function parameter `matches`.

## Model

| member | source | states |
|---|---|---|
| `UserController.IndexOfUsername` | server/src/controller/user.controller.js:20 | `findOne({ username })`: the first document with that username, or -1 exactly when no document has it |
| `UserController.IndexOfUserId` | server/src/controller/user.controller.js:113 | `findById`: the first document with that id, or -1 exactly when none has it |
| `UserController.AvatarType` | server/src/controller/user.controller.js:25 | the avatar type is "boy" exactly when gender is "male", otherwise "girl" |
| `UserController.AvatarUrl` | server/src/controller/user.controller.js:26 | the URL starts with the avatar service's base and ends with the username |
| `UserController.AvatarUrlRoundTrip` | server/src/controller/user.controller.js:25-26 | the avatar URL can be parsed back into the avatar type and the exact username it embeds; the type read back is "boy" iff gender is "male" |
| `UserController.RegisterUser` | server/src/controller/user.controller.js:13-41 | 400 "All fields are required" when fullname, username or password is missing, whatever the store holds; otherwise 400 "User name already exists" when the name is taken; otherwise 201 with the new user (avatar from gender and username, no last-seen) appended to the directory; on failure the directory is unchanged |
| `UserController.RegisterKeepsUsernamesUnique` | server/src/controller/user.controller.js:20-32 | registration keeps usernames pairwise distinct in the directory |
| `UserController.RegisteringTwiceFails` | server/src/controller/user.controller.js:20-23 | after a successful registration, any complete registration with the same username is refused as taken |
| `UserController.LoginUser` | server/src/controller/user.controller.js:47-84 | 400 when username or password is missing; 404 when no user has the name; otherwise the reply is a success exactly when the comparison accepts the password of the `findOne` match (the first user with that name), which is then returned, and every failure is 401 "Invalid credentials" |
| `UserController.Usernames` | server/src/controller/user.controller.js:97 | the projection keeps length and gives each document's username at its position |
| `UserController.GetAllUsernames` | server/src/controller/user.controller.js:92-99 | 404 exactly when the store answers null; otherwise 200 with the username of every document in store order |
| `UserController.UsernameListingMatchesRegistration` | server/src/controller/user.controller.js:89-97 | a name is in the listing exactly when a complete registration with that name is refused as taken |
| `UserController.GetProfile` | server/src/controller/user.controller.js:106-124 | 401 without a truthy user id; 404 when no document has the id; success returns the password-free profile of a stored document with that id |
| `UserController.Profiles` | server/src/controller/user.controller.js:143-145 | selecting "-password" keeps every matched document, in order, without its password |
| `UserController.SearchUser` | server/src/controller/user.controller.js:131-157 | a missing username is 400 even without a user id; then 401 without a truthy user id; then 404 only when the store answers null, so an empty match list is a 200 with no profiles |
| `UserController.Logout` | server/src/controller/user.controller.js:224-256 | 400 without a truthy user id; 404 when no document has it; otherwise 200, and the found document's last-seen becomes `now`; on failure the directory is unchanged |
| `UserController.LogoutStampsLastSeen` | server/src/controller/user.controller.js:233-244 | after a successful logout the profile shows last-seen `now`, and every other user's document is unchanged |
| `UserController.CounterpartIndex` | server/src/controller/user.controller.js:192 | the counterpart is the first participant whose id differs from the viewer's; -1 exactly when every participant is the viewer |
| `UserController.Counterpart` | server/src/controller/user.controller.js:192-193 | null exactly when every participant is the viewer; otherwise a participant whose id is not the viewer's |
| `UserController.EntryFor` | server/src/controller/user.controller.js:195-206 | the entry carries the counterpart's fields; its time is null exactly when there are no messages, and then message and sender are null too |
| `UserController.ChatEntries` | server/src/controller/user.controller.js:189-207 | the aggregation pushes at most one entry per conversation |
| `UserController.GetChatUsers` | server/src/controller/user.controller.js:164-214 | 400 without a truthy user id; 404 exactly when the conversation list is null or empty; otherwise 200 with the loop's results equal to `ChatEntries` of the conversations |
| `UserController.ChatEntriesFollowConversations` | server/src/controller/user.controller.js:189-207 | entry k is built from conversation `SourceIndices[k]` (its counterpart and messages), those positions strictly increase, and every conversation with a counterpart yields an entry: store order, one entry per kept conversation |
| `UserController.ChatEntriesAtMostOnePerConversation` | server/src/controller/user.controller.js:191-193 | there are at most as many entries as conversations, and exactly as many iff every conversation has a counterpart |
| `UserController.ChatEntriesExcludeViewer` | server/src/controller/user.controller.js:192 | no entry's id is the viewer's |
| `UserController.EntryTakesNewestMessage` | server/src/controller/user.controller.js:195-205 | with no messages, message, time and sender are all null but the counterpart's fields are kept; otherwise the body is `messages[0]`'s (null when empty), the time is `messages[0]`'s `createdAt` and the sender is `messages[0]`'s, and that time is the latest of the newest-first messages |
| `UserController.ChatEntriesDistinct` | server/src/controller/user.controller.js:172-207 | over a store with two participants per conversation and one conversation per pair, no counterpart is listed twice |
| `UserController.ChatEntriesNotSortedByTime` | server/src/controller/user.controller.js:189-212 | an older conversation stored first is listed before a newer one: the list is not sorted by time |
| `ChatModel.OrElse` | client/src/store/slice/user/user.slice.js:70 | JavaScript `or` on a payload: the payload when it is a non-empty string, else the fallback |
| `UserSlice.IndexOfId` | client/src/store/slice/user/user.slice.js:45 | `findIndex` by `_id`: the first matching position, or -1 exactly when no entry has the id |
| `UserSlice.FindIndex` | client/src/store/slice/user/user.slice.js:29 | the search loop returns the first position holding the id, or -1 when there is none |
| `UserSlice.WithUserAdded` | client/src/store/slice/user/user.slice.js:27-42 | the list grows by at most one entry, the old list is kept as its tail, and the contact is listed afterwards |
| `UserSlice.WithLastMessage` | client/src/store/slice/user/user.slice.js:43-55 | the length is kept; an unlisted id changes nothing; otherwise the front entry has the listed contact and the new message, sender and time `now` |
| `UserSlice.AddUserToChatListEffect` | client/src/store/slice/user/user.slice.js:27-42 | a listed id leaves the list unchanged; a new id adds one entry at the front (contact copied, no message, no sender, time `now`) followed by the old list in order; the id set gains exactly that id |
| `UserSlice.AddUserToChatListIdempotent` | client/src/store/slice/user/user.slice.js:29-30 | adding the same contact twice equals adding it once |
| `UserSlice.AddUserToChatListKeepsIdsDistinct` | client/src/store/slice/user/user.slice.js:27-42 | pairwise-distinct ids stay pairwise distinct |
| `UserSlice.RemoveAtIsWithout` | client/src/store/slice/user/user.slice.js:52 | with distinct ids, splicing out an entry leaves exactly the entries with other ids, in their order |
| `UserSlice.UpdateLastMessageEffect` | client/src/store/slice/user/user.slice.js:43-55 | an unlisted id leaves the list unchanged; a listed one keeps the length, moves the entry to the front with the given message and sender, time `now` and its contact unchanged, and the other entries follow in their old order |
| `UserSlice.UpdateLastMessageKeepsIdsDistinct` | client/src/store/slice/user/user.slice.js:43-55 | pairwise-distinct ids stay pairwise distinct |
| `UserSlice.UpdateLastMessageKeepsIdSet` | client/src/store/slice/user/user.slice.js:43-55 | the set of listed ids is unchanged, whether or not the id was listed |
| `UserSlice.Reduce` | client/src/store/slice/user/user.slice.js:20-145 | which actions may change which field: the chat list only through the two chat-list reducers, logout success and a fetched list; search results only through clearing and a fetched search; the selection only through `setSelectUser` and logout; the user only through a fetched profile and logout; the screen spinner only through the profile outcomes; the slice's own reducers leave the session alone; every rejection records a non-empty error |
| `UserSlice.LogoutClearsSession` | client/src/store/slice/user/user.slice.js:105-112 | logout success: not authenticated; user, selected user and error null; chat list empty; loading off; search results kept |
| `UserSlice.FetchReplacesChatList` | client/src/store/slice/user/user.slice.js:122-126 | a fetched chat list replaces the cache, the spinner stops and the error is cleared; authentication is untouched |
| `UserSlice.LoginFailureMessage` | client/src/store/slice/user/user.slice.js:68-72 | a failed login sets the error to the payload, or "Failed to login" when there is none, and clears authentication |
| `UserSlice.ReduceSettlesAuth` | client/src/store/slice/user/user.slice.js:63-112 | each action sets `isAuthenticated` (true for a fulfilled login or profile fetch, false for a rejected login, signup or profile fetch and a fulfilled logout) or leaves it alone |
| `UserSlice.AuthenticatedFollowsLastOutcome` | client/src/store/slice/user/user.slice.js:63-112 | after any trace, the client is authenticated exactly when the last settling outcome was a fulfilled login or profile fetch |
| `UserSlice.ReduceChatUsersLoading` | client/src/store/slice/user/user.slice.js:118-130 | only the chat-list thunk's actions touch its spinner: pending turns it on, fulfilled and rejected turn it off |
| `UserSlice.ChatUsersLoadingFollowsLastEvent` | client/src/store/slice/user/user.slice.js:118-130 | after any trace, the chat-list spinner is on exactly when the latest chat-list action is the pending one |
| `UserSlice.ChatUsersStayDistinct` | client/src/store/slice/user/user.slice.js:27-126 | if the cache starts with distinct ids and each fetched list has them, every trace keeps them |
| `UserSlice.Slice.constructor` | client/src/store/slice/user/user.slice.js:4-15 | the slice starts in the initial state: signed out, empty lists, screen loading on |
| `UserSlice.Slice.AddUserToChatList` | client/src/store/slice/user/user.slice.js:27-42 | the in-place reducer leaves the chat list equal to `WithUserAdded` of the old list and every other field unchanged |
| `UserSlice.Slice.UpdateLastMessage` | client/src/store/slice/user/user.slice.js:43-55 | the in-place overwrite, splice and unshift leave the chat list equal to `WithLastMessage` of the old list and every other field unchanged |
| `UserSlice.Slice.Dispatch` | client/src/store/slice/user/user.slice.js:20-145 | dispatching any reducer or thunk-outcome action changes the fields exactly as `Reduce` says |
| `UserSlice.Slice.ApplyChatListAction` | client/src/store/slice/user/user.slice.js:20-56 | `setSelectUser`, `clearSearchResults` and the two chat-list reducers change the fields exactly as `Reduce` says |
| `UserSlice.Slice.ApplySessionAction` | client/src/store/slice/user/user.slice.js:59-116 | each pending, fulfilled or rejected outcome of login, signup, profile and logout changes the fields exactly as `Reduce` says |
| `UserSlice.Slice.ApplyFetchAction` | client/src/store/slice/user/user.slice.js:118-144 | each outcome of the chat-list and search thunks changes the fields exactly as `Reduce` says |
| `ChatListSync.CachedChatListHasDistinctIds` | client/src/store/slice/user/user.slice.js:122-126 | from the initial state, if every fetched chat list is a server aggregation, for some viewer, over a one-conversation-per-pair store, the cache never lists an id twice |
| `ChatListSync.UpdateMatchesReaggregation` | client/src/store/slice/user/user.slice.js:43-55 | against the entry the server derives once the message is stored as the conversation's newest: contact and sender always agree; the message agrees unless it is empty (the client keeps `""`, the server sends null); the time agrees exactly when the client's clock reading equals the stored `createdAt` |

## Left out

- Store access: `find`, `findOne`, `findById`, `populate`, `save` and the `$regex` prefix search of `searchUser` are not modelled. Their results are inputs, and the aggregation trusts the store to sort messages newest-first.
- Password hashing and comparison (bcrypt), JWT signing and cookie setting or clearing in `loginUser` and `logout` are cryptography and HTTP plumbing. The comparison is an opaque parameter.
- `getChatUsers` reads `req.user._id` without optional chaining. With no authenticated user attached the handler throws before its own check. The model takes the user id as an input and covers only the handler's 400 branch.
- Thrown store errors go through `asyncHandler` and the error middleware, which are not part of this model.
- Serialising dates to ISO strings is not modelled. Time is an opaque number that is only copied.
- Request bodies are narrowed to optional strings. A JSON body whose `username` or `password` is not a string (an object such as `{"$ne": null}`, a number) is truthy in the source and reaches `findOne` as a query operator (user.controller.js:20, 54); the model cannot represent it.
- Each handler runs as one atomic step. Two registrations interleaved between the `findOne` at user.controller.js:20 and the `save` at line 32 can both succeed with the same username; `RegisterKeepsUsernamesUnique` holds only for registrations one after another.
- A user id in the request is either a string or an ObjectId, which is always truthy; the model reads it as a string that is falsy only when empty.
- Payload types that the thunks do not show are narrowed. A rejected payload is an optional string; a `setSelectUser` payload is an optional contact.
- `client/src/store/slice/socket/socket.slice.js` is left out. It opens a socket.io connection, which is I/O, and its `setOnlineUsers` is a bare assignment.
- `server/src/config/db.config.js` is left out: it connects to the database and may exit the process.
- The presence registry and the message send and delivery path are not part of this model. Per-pair conversation creation under concurrency is not covered either.
