/**
 * The server's user controller: the validation and error order of each
 * handler, the avatar chosen at registration, the username listing, the
 * last-seen stamp written at logout, and the chat-list aggregation of
 * getChatUsers. Every store query is an input: the user directory is a
 * sequence of user documents in store order (findOne and findById return
 * the first match), and a query that may come back null is an Option.
 */
module UserController {
  import opened ChatModel

  /** A reply: the HTTP status, the JSON `message` and, on success, the `responseData`. */
  datatype Reply<T> =
    | Success(status: nat, message: string, data: T)
    | Failure(status: nat, message: string)

  // ---------------------------------------------------------------------
  // Directory lookups: userModel.findOne({ username }) and findById(id)
  // ---------------------------------------------------------------------

  /** Index of the first user document with this username, or -1. */
  function IndexOfUsername(dir: seq<User>, name: string): (i: int)
    ensures -1 <= i < |dir|
    ensures i == -1 <==> forall k :: 0 <= k < |dir| ==> dir[k].username != name
    ensures 0 <= i ==> dir[i].username == name && forall k :: 0 <= k < i ==> dir[k].username != name
  {
    if |dir| == 0 then -1
    else if dir[0].username == name then 0
    else
      var j := IndexOfUsername(dir[1..], name);
      if j == -1 then -1 else j + 1
  }

  /** Index of the first user document with this `_id`, or -1. */
  function IndexOfUserId(dir: seq<User>, id: UserId): (i: int)
    ensures -1 <= i < |dir|
    ensures i == -1 <==> forall k :: 0 <= k < |dir| ==> dir[k].id != id
    ensures 0 <= i ==> dir[i].id == id && forall k :: 0 <= k < i ==> dir[k].id != id
  {
    if |dir| == 0 then -1
    else if dir[0].id == id then 0
    else
      var j := IndexOfUserId(dir[1..], id);
      if j == -1 then -1 else j + 1
  }

  predicate UsernameTaken(dir: seq<User>, name: string)
  {
    IndexOfUsername(dir, name) != -1
  }

  /** The uniqueness the registration check is there to keep. */
  predicate UniqueUsernames(dir: seq<User>)
  {
    forall i, j :: 0 <= i < j < |dir| ==> dir[i].username != dir[j].username
  }

  // ---------------------------------------------------------------------
  // Avatar selection (registerUser)
  // ---------------------------------------------------------------------

  const AvatarBase: string := "https://avatar.iran.liara.run/public/"
  const UsernameQuery: string := "?username="

  function AvatarType(gender: Option<string>): (t: string)
    ensures t == "boy" <==> gender == Some("male")
    ensures t == "boy" || t == "girl"
  {
    if gender == Some("male") then "boy" else "girl"
  }

  function AvatarUrl(gender: Option<string>, username: string): (url: string)
    ensures |AvatarBase| < |url| && url[..|AvatarBase|] == AvatarBase
    ensures |username| <= |url| && url[|url| - |username|..] == username
  {
    AvatarBase + AvatarType(gender) + UsernameQuery + username
  }

  /** Reads the avatar type and the username back out of an avatar URL. */
  function ParseAvatarUrl(url: string): Option<(string, string)>
  {
    var boy := AvatarBase + "boy" + UsernameQuery;
    var girl := AvatarBase + "girl" + UsernameQuery;
    if |boy| <= |url| && url[..|boy|] == boy then Some(("boy", url[|boy|..]))
    else if |girl| <= |url| && url[..|girl|] == girl then Some(("girl", url[|girl|..]))
    else None
  }

  /** The avatar URL carries the avatar type chosen from the gender and the
      username verbatim, and both can be read back from it. */
  lemma AvatarUrlRoundTrip(gender: Option<string>, username: string)
    ensures ParseAvatarUrl(AvatarUrl(gender, username)) == Some((AvatarType(gender), username))
    ensures ParseAvatarUrl(AvatarUrl(gender, username)).value.0 == "boy" <==> gender == Some("male")
  {
    var url := AvatarUrl(gender, username);
    var boy := AvatarBase + "boy" + UsernameQuery;
    var girl := AvatarBase + "girl" + UsernameQuery;
    var t := AvatarType(gender);
    var head := AvatarBase + t + UsernameQuery;
    assert url == head + username;
    assert url[..|head|] == head;
    assert url[|head|..] == username;
    if t == "girl" {
      assert url[|AvatarBase|] == 'g';
      assert boy[|AvatarBase|] == 'b';
      assert |boy| <= |url| ==> url[..|boy|] != boy by {
        if |boy| <= |url| {
          assert url[..|boy|][|AvatarBase|] == 'g';
        }
      }
      assert head == girl;
    } else {
      assert head == boy;
    }
  }

  // ---------------------------------------------------------------------
  // registerUser
  // ---------------------------------------------------------------------

  datatype RegisterBody = RegisterBody(
    fullname: Option<string>,
    username: Option<string>,
    gender: Option<string>,
    password: Option<string>)

  predicate AllRegisterFields(body: RegisterBody)
  {
    Given(body.fullname) && Given(body.username) && Given(body.password)
  }

  /** Handles a registration: the reply and the directory afterwards.
      `freshId` is the `_id` the store assigns to the new document. */
  function RegisterUser(body: RegisterBody, dir: seq<User>, freshId: UserId): (r: (Reply<User>, seq<User>))
    // a missing field is reported before the store is consulted
    ensures !AllRegisterFields(body) ==> r == (Failure(400, "All fields are required"), dir)
    ensures AllRegisterFields(body) && UsernameTaken(dir, body.username.value) ==>
      r == (Failure(400, "User name already exists"), dir)
    ensures r.0.Success? <==> AllRegisterFields(body) && !UsernameTaken(dir, body.username.value)
    ensures r.0.Success? ==>
      && r.0.status == 201
      && r.1 == dir + [r.0.data]
      && r.0.data.id == freshId
      && r.0.data.fullname == body.fullname.value
      && r.0.data.username == body.username.value
      && r.0.data.gender == body.gender
      && r.0.data.password == body.password.value
      && r.0.data.avatar == AvatarUrl(body.gender, body.username.value)
      && r.0.data.lastLogout == None
  {
    if !AllRegisterFields(body) then
      (Failure(400, "All fields are required"), dir)
    else if UsernameTaken(dir, body.username.value) then
      (Failure(400, "User name already exists"), dir)
    else
      var name := body.username.value;
      var user := User(freshId, body.fullname.value, name, body.gender,
                       AvatarUrl(body.gender, name), body.password.value, None);
      (Success(201, "User registered successfully", user), dir + [user])
  }

  /** Registration keeps usernames unique in the directory. */
  lemma RegisterKeepsUsernamesUnique(body: RegisterBody, dir: seq<User>, freshId: UserId)
    requires UniqueUsernames(dir)
    ensures UniqueUsernames(RegisterUser(body, dir, freshId).1)
  {
  }

  /** Once a username is registered, registering it again is refused,
      whatever the other fields say. */
  lemma RegisteringTwiceFails(first: RegisterBody, second: RegisterBody, dir: seq<User>, id1: UserId, id2: UserId)
    requires RegisterUser(first, dir, id1).0.Success?
    requires AllRegisterFields(second) && second.username == first.username
    ensures RegisterUser(second, RegisterUser(first, dir, id1).1, id2).0 == Failure(400, "User name already exists")
  {
    var after := RegisterUser(first, dir, id1).1;
    assert after[|dir|].username == second.username.value;
  }

  // ---------------------------------------------------------------------
  // loginUser (the decisions only; bcrypt is the `matches` parameter)
  // ---------------------------------------------------------------------

  /** Handles a login. `matches(plain, stored)` stands for bcrypt.compare. */
  function LoginUser(username: Option<string>, password: Option<string>, dir: seq<User>,
                     matches: (string, string) -> bool): (r: Reply<User>)
    ensures !Given(username) || !Given(password) ==> r == Failure(400, "All fields are required")
    ensures Given(username) && Given(password) && !UsernameTaken(dir, username.value) ==>
      r == Failure(404, "User not found")
    ensures r.Success? ==>
      && Given(username) && Given(password)
      && r.status == 200
      && r.data == dir[IndexOfUsername(dir, username.value)]
      && r.data.username == username.value
    ensures Given(username) && Given(password) && UsernameTaken(dir, username.value) ==>
      (r.Failure? <==> r == Failure(401, "Invalid credentials"))
    // the password is checked against the findOne match, and only against it
    ensures Given(username) && Given(password) && UsernameTaken(dir, username.value) ==>
      (r.Success? <==> matches(password.value, dir[IndexOfUsername(dir, username.value)].password))
  {
    if !Given(username) || !Given(password) then
      Failure(400, "All fields are required")
    else
      var i := IndexOfUsername(dir, username.value);
      if i == -1 then Failure(404, "User not found")
      else if !matches(password.value, dir[i].password) then Failure(401, "Invalid credentials")
      else Success(200, "Login successful", dir[i])
  }

  // ---------------------------------------------------------------------
  // getAllUsernames
  // ---------------------------------------------------------------------

  /** `users.map((user) => user.username)` */
  function Usernames(users: seq<User>): (names: seq<string>)
    ensures |names| == |users|
    ensures forall k :: 0 <= k < |users| ==> names[k] == users[k].username
  {
    if |users| == 0 then [] else [users[0].username] + Usernames(users[1..])
  }

  /** Handles the username listing; `found` is the store's answer. */
  function GetAllUsernames(found: Option<seq<User>>): (r: Reply<seq<string>>)
    ensures found.None? <==> r == Failure(404, "Faild to fetch user names.")
    ensures found.Some? ==> r.Success? && r.status == 200 && r.data == Usernames(found.value)
  {
    match found
    case None => Failure(404, "Faild to fetch user names.")
    case Some(users) => Success(200, "All user name fetched sucessfully.", Usernames(users))
  }

  /** The listing lets a client predict the registration check: a name is in
      the list exactly when registering it would be refused as taken. */
  lemma UsernameListingMatchesRegistration(dir: seq<User>, body: RegisterBody, freshId: UserId)
    requires AllRegisterFields(body)
    ensures body.username.value in GetAllUsernames(Some(dir)).data <==>
            RegisterUser(body, dir, freshId).0 == Failure(400, "User name already exists")
  {
  }

  // ---------------------------------------------------------------------
  // getProfile
  // ---------------------------------------------------------------------

  function GetProfile(userId: Option<UserId>, dir: seq<User>): (r: Reply<Profile>)
    ensures !IdGiven(userId) ==> r == Failure(401, "Unauthorized access")
    ensures IdGiven(userId) && IndexOfUserId(dir, userId.value) == -1 ==> r == Failure(404, "User not found")
    ensures r.Success? ==>
      && IdGiven(userId)
      && r.status == 200
      && r.data.id == userId.value
      && exists k :: 0 <= k < |dir| && dir[k].id == userId.value && r.data == PublicProfile(dir[k])
    ensures r.Failure? ==> !IdGiven(userId) || IndexOfUserId(dir, userId.value) == -1
  {
    if !IdGiven(userId) then Failure(401, "Unauthorized access")
    else
      var i := IndexOfUserId(dir, userId.value);
      if i == -1 then Failure(404, "User not found")
      else Success(200, "User profile fetched successfully", PublicProfile(dir[i]))
  }

  // ---------------------------------------------------------------------
  // searchUser (the prefix query itself belongs to the store)
  // ---------------------------------------------------------------------

  function Profiles(users: seq<User>): (ps: seq<Profile>)
    ensures |ps| == |users|
    ensures forall k :: 0 <= k < |users| ==> ps[k] == PublicProfile(users[k])
  {
    if |users| == 0 then [] else [PublicProfile(users[0])] + Profiles(users[1..])
  }

  /** Handles a search; `found` is the store's answer to the prefix query. */
  function SearchUser(username: Option<string>, userId: Option<UserId>, found: Option<seq<User>>): (r: Reply<seq<Profile>>)
    // the missing query is reported first, even to an unauthenticated caller
    ensures !Given(username) ==> r == Failure(400, "User name required")
    ensures Given(username) && !IdGiven(userId) ==> r == Failure(401, "Unauthorized access")
    ensures Given(username) && IdGiven(userId) && found.None? ==> r == Failure(404, "Users not found")
    ensures r.Success? <==> Given(username) && IdGiven(userId) && found.Some?
    ensures r.Success? ==> r.status == 200 && |r.data| == |found.value|
    ensures r.Success? ==> forall k :: 0 <= k < |r.data| ==> r.data[k] == PublicProfile(found.value[k])
  {
    if !Given(username) then Failure(400, "User name required")
    else if !IdGiven(userId) then Failure(401, "Unauthorized access")
    else if found.None? then Failure(404, "Users not found")
    else Success(200, "User profile fetched successfully", Profiles(found.value))
  }

  // ---------------------------------------------------------------------
  // logout (cookie clearing left out)
  // ---------------------------------------------------------------------

  /** Handles a logout at instant `now`: the reply and the directory afterwards. */
  function Logout(userId: Option<UserId>, dir: seq<User>, now: Timestamp): (r: (Reply<()>, seq<User>))
    ensures !IdGiven(userId) ==> r == (Failure(400, "No user found"), dir)
    ensures IdGiven(userId) && IndexOfUserId(dir, userId.value) == -1 ==> r == (Failure(404, "User not found"), dir)
    ensures r.0.Success? <==> IdGiven(userId) && IndexOfUserId(dir, userId.value) != -1
    ensures r.0.Success? ==>
      var i := IndexOfUserId(dir, userId.value);
      && r.0.status == 200
      && r.1 == dir[i := dir[i].(lastLogout := Some(now))]
  {
    if !IdGiven(userId) then (Failure(400, "No user found"), dir)
    else
      var i := IndexOfUserId(dir, userId.value);
      if i == -1 then (Failure(404, "User not found"), dir)
      else (Success(200, "User logged out successfully", ()), dir[i := dir[i].(lastLogout := Some(now))])
  }

  /** Logging out stamps the user's last-seen time, which the profile then
      shows, and leaves every other user document as it was. */
  lemma LogoutStampsLastSeen(id: UserId, dir: seq<User>, now: Timestamp)
    requires Logout(Some(id), dir, now).0.Success?
    ensures var after := Logout(Some(id), dir, now).1;
      && |after| == |dir|
      && GetProfile(Some(id), after).Success?
      && GetProfile(Some(id), after).data.lastLogout == Some(now)
      && (forall k :: 0 <= k < |dir| && dir[k].id != id ==> after[k] == dir[k])
  {
    var i := IndexOfUserId(dir, id);
    var after := Logout(Some(id), dir, now).1;
    assert after[i].id == id;
  }

  // ---------------------------------------------------------------------
  // getChatUsers
  // ---------------------------------------------------------------------

  /** A stored message as populated: its body, its creation time, and its
      sender's `_id`, absent when the sender document no longer exists. */
  datatype Message = Message(body: string, createdAt: Timestamp, sender: Option<UserId>)

  /** A conversation as the store returns it for the viewer: participants
      populated with their public fields, messages sorted newest-first. */
  datatype Conversation = Conversation(participants: seq<Contact>, messages: seq<Message>)

  /** Index of the first participant whose `_id` differs from the viewer's, or -1. */
  function CounterpartIndex(viewer: UserId, ps: seq<Contact>): (i: int)
    ensures -1 <= i < |ps|
    ensures i == -1 <==> forall k :: 0 <= k < |ps| ==> ps[k].id == viewer
    ensures 0 <= i ==> ps[i].id != viewer && forall k :: 0 <= k < i ==> ps[k].id == viewer
  {
    if |ps| == 0 then -1
    else if ps[0].id != viewer then 0
    else
      var j := CounterpartIndex(viewer, ps[1..]);
      if j == -1 then -1 else j + 1
  }

  /** `conv.participants.find(p => p._id !== userId)` */
  function Counterpart(viewer: UserId, conv: Conversation): (other: Option<Contact>)
    ensures other.None? <==> forall k :: 0 <= k < |conv.participants| ==> conv.participants[k].id == viewer
    ensures other.Some? ==> other.value in conv.participants && other.value.id != viewer
  {
    var i := CounterpartIndex(viewer, conv.participants);
    if i == -1 then None else Some(conv.participants[i])
  }

  /** The entry pushed for a conversation whose counterpart is `other`:
      the counterpart's public fields and the first message's body, time
      and sender, where `x || null` turns an empty body into null. */
  function EntryFor(other: Contact, messages: seq<Message>): (e: ChatEntry)
    ensures e.contact == other
    ensures e.time.None? <==> |messages| == 0
    ensures |messages| == 0 ==> e.lastMessage.None? && e.senderId.None?
  {
    if |messages| == 0 then ChatEntry(other, None, None, None)
    else
      var last := messages[0];
      ChatEntry(other, if last.body == "" then None else Some(last.body), Some(last.createdAt), last.sender)
  }

  /** The entries produced from `convs`, in their order (the aggregation's specification). */
  function ChatEntries(viewer: UserId, convs: seq<Conversation>): (entries: seq<ChatEntry>)
    ensures |entries| <= |convs|
  {
    if |convs| == 0 then []
    else
      var c := convs[|convs| - 1];
      var init := ChatEntries(viewer, convs[..|convs| - 1]);
      match Counterpart(viewer, c)
      case None => init
      case Some(other) => init + [EntryFor(other, c.messages)]
  }

  /** The positions of the conversations that yield an entry. */
  function SourceIndices(viewer: UserId, convs: seq<Conversation>): seq<nat>
  {
    if |convs| == 0 then []
    else
      var init := SourceIndices(viewer, convs[..|convs| - 1]);
      if Counterpart(viewer, convs[|convs| - 1]).Some? then init + [|convs| - 1] else init
  }

  /** One more conversation adds its entry, if it has a counterpart, after the others. */
  lemma ChatEntriesExtend(viewer: UserId, convs: seq<Conversation>, n: nat)
    requires n < |convs|
    ensures ChatEntries(viewer, convs[..n + 1]) ==
      match Counterpart(viewer, convs[n])
      case None => ChatEntries(viewer, convs[..n])
      case Some(other) => ChatEntries(viewer, convs[..n]) + [EntryFor(other, convs[n].messages)]
  {
    assert convs[..n + 1][..n] == convs[..n];
  }

  /** Handles the chat-list request; `found` is the store's answer to
      find({ participants: userId }) with both populates applied. */
  method GetChatUsers(userId: Option<UserId>, found: Option<seq<Conversation>>) returns (r: Reply<seq<ChatEntry>>)
    ensures !IdGiven(userId) ==> r == Failure(400, "User id is not given")
    ensures IdGiven(userId) ==> (r == Failure(404, "No conversation found") <==> found.None? || |found.value| == 0)
    ensures r.Success? <==> IdGiven(userId) && found.Some? && |found.value| > 0
    ensures r.Success? ==>
      r.status == 200 && r.data == ChatEntries(userId.value, found.value)
  {
    if !IdGiven(userId) {
      return Failure(400, "User id is not given");
    }
    if found.None? || |found.value| == 0 {
      return Failure(404, "No conversation found");
    }
    var viewer := userId.value;
    var conversations := found.value;
    var results: seq<ChatEntry> := [];
    var n := 0;
    while n < |conversations|
      invariant 0 <= n <= |conversations|
      invariant results == ChatEntries(viewer, conversations[..n])
    {
      var conv := conversations[n];
      ChatEntriesExtend(viewer, conversations, n);
      var otherUser := Counterpart(viewer, conv);
      if otherUser.Some? {
        results := results + [EntryFor(otherUser.value, conv.messages)];
      }
      n := n + 1;
    }
    assert conversations[..n] == conversations;
    return Success(200, "Chatted users with last message fetched", results);
  }

  /** The aggregation emits exactly one entry per conversation that has a
      counterpart, in the store's order, and nothing else: entry k comes
      from conversation SourceIndices[k], and those positions increase. */
  lemma {:induction false} ChatEntriesFollowConversations(viewer: UserId, convs: seq<Conversation>)
    ensures var entries, idx := ChatEntries(viewer, convs), SourceIndices(viewer, convs);
      && |entries| == |idx| <= |convs|
      && (forall k :: 0 <= k < |idx| ==>
            && idx[k] < |convs|
            && Counterpart(viewer, convs[idx[k]]).Some?
            && entries[k] == EntryFor(Counterpart(viewer, convs[idx[k]]).value, convs[idx[k]].messages))
      && (forall k, l :: 0 <= k < l < |idx| ==> idx[k] < idx[l])
      && (forall i :: 0 <= i < |convs| && Counterpart(viewer, convs[i]).Some? ==> i in idx)
  {
    if |convs| > 0 {
      var init := convs[..|convs| - 1];
      ChatEntriesFollowConversations(viewer, init);
      var idx0 := SourceIndices(viewer, init);
      var idx := SourceIndices(viewer, convs);
      assert forall k :: 0 <= k < |idx0| ==> convs[idx0[k]] == init[idx0[k]];
      forall i | 0 <= i < |convs| && Counterpart(viewer, convs[i]).Some?
        ensures i in idx
      {
        if i < |convs| - 1 {
          assert convs[i] == init[i];
          assert i in idx0;
        }
      }
    }
  }

  /** A conversation whose participants are all the viewer is skipped, so
      there are never more entries than conversations. */
  lemma {:induction false} ChatEntriesAtMostOnePerConversation(viewer: UserId, convs: seq<Conversation>)
    ensures |ChatEntries(viewer, convs)| <= |convs|
    ensures |ChatEntries(viewer, convs)| == |convs| <==>
            forall i :: 0 <= i < |convs| ==> Counterpart(viewer, convs[i]).Some?
  {
    if |convs| > 0 {
      var init := convs[..|convs| - 1];
      ChatEntriesAtMostOnePerConversation(viewer, init);
      assert forall i :: 0 <= i < |init| ==> init[i] == convs[i];
    }
  }

  /** The viewer never appears as a counterpart in their own chat list. */
  lemma {:induction false} ChatEntriesExcludeViewer(viewer: UserId, convs: seq<Conversation>)
    ensures forall e :: e in ChatEntries(viewer, convs) ==> e.contact.id != viewer
  {
    if |convs| > 0 {
      ChatEntriesExcludeViewer(viewer, convs[..|convs| - 1]);
    }
  }

  /** An entry's message fields: null all together when the conversation has
      no messages, otherwise taken from the newest message, whose time is
      then the largest creation time in the conversation. */
  lemma EntryTakesNewestMessage(other: Contact, messages: seq<Message>)
    requires forall i, j :: 0 <= i < j < |messages| ==> messages[i].createdAt >= messages[j].createdAt
    ensures var e := EntryFor(other, messages);
      && e.contact == other
      && (|messages| == 0 ==> e.lastMessage.None? && e.time.None? && e.senderId.None?)
      && (|messages| > 0 ==>
            && e.lastMessage == (if messages[0].body == "" then None else Some(messages[0].body))
            && e.time == Some(messages[0].createdAt)
            && e.senderId == messages[0].sender
            && forall k :: 0 <= k < |messages| ==> messages[k].createdAt <= e.time.value)
  {
  }

  /** The store's one-conversation-per-pair shape, as the viewer's query
      sees it: two participants, one of them the viewer, and no two
      conversations over the same pair. */
  predicate PairwiseStore(viewer: UserId, convs: seq<Conversation>)
  {
    && (forall i :: 0 <= i < |convs| ==>
          |convs[i].participants| == 2 &&
          (convs[i].participants[0].id == viewer || convs[i].participants[1].id == viewer))
    && (forall i, j :: 0 <= i < j < |convs| ==>
          {convs[i].participants[0].id, convs[i].participants[1].id} !=
          {convs[j].participants[0].id, convs[j].participants[1].id})
  }

  lemma CounterpartOfPair(viewer: UserId, c: Conversation)
    requires |c.participants| == 2
    requires c.participants[0].id == viewer || c.participants[1].id == viewer
    requires Counterpart(viewer, c).Some?
    ensures {c.participants[0].id, c.participants[1].id} == {viewer, Counterpart(viewer, c).value.id}
  {
  }

  /** Over a store that keeps one conversation per pair, the chat list has
      one entry per counterpart: no `_id` is listed twice. */
  lemma ChatEntriesDistinct(viewer: UserId, convs: seq<Conversation>)
    requires PairwiseStore(viewer, convs)
    ensures DistinctIds(ChatEntries(viewer, convs))
  {
    var entries, idx := ChatEntries(viewer, convs), SourceIndices(viewer, convs);
    ChatEntriesFollowConversations(viewer, convs);
    forall k, l | 0 <= k < l < |entries|
      ensures entries[k].contact.id != entries[l].contact.id
    {
      var a, b := convs[idx[k]], convs[idx[l]];
      CounterpartOfPair(viewer, a);
      CounterpartOfPair(viewer, b);
      assert idx[k] < idx[l];
    }
  }

  /** The list keeps the store's conversation order and is not sorted by
      time: an older conversation stored first stays first. */
  lemma ChatEntriesNotSortedByTime()
    ensures var viewer := "a";
      var me := Contact("a", "A", "a", "", None);
      var older := Conversation([me, Contact("b", "B", "b", "", None)], [Message("hi", 1, Some("b"))]);
      var newer := Conversation([me, Contact("c", "C", "c", "", None)], [Message("yo", 2, Some("c"))]);
      var entries := ChatEntries(viewer, [older, newer]);
      |entries| == 2 && entries[0].time == Some(1) && entries[1].time == Some(2)
  {
    var me := Contact("a", "A", "a", "", None);
    var older := Conversation([me, Contact("b", "B", "b", "", None)], [Message("hi", 1, Some("b"))]);
    var newer := Conversation([me, Contact("c", "C", "c", "", None)], [Message("yo", 2, Some("c"))]);
    assert [older, newer][..1] == [older];
    assert [older][..0] == [];
    assert CounterpartIndex("a", older.participants) == 1 by {
      assert older.participants[1..] == [Contact("b", "B", "b", "", None)];
    }
    assert CounterpartIndex("a", newer.participants) == 1 by {
      assert newer.participants[1..] == [Contact("c", "C", "c", "", None)];
    }
    assert ChatEntries("a", [older]) == [EntryFor(Contact("b", "B", "b", "", None), older.messages)];
    assert ChatEntries("a", [older, newer]) ==
      ChatEntries("a", [older]) + [EntryFor(Contact("c", "C", "c", "", None), newer.messages)];
  }
}
