/**
 * Records shared by the server's user controller and the client's user
 * slice: users as the directory stores them, the public projections the
 * server sends out, and the chat-list entry both sides agree on.
 */
module ChatModel {

  datatype Option<+T> = None | Some(value: T)

  /** A user's `_id`, compared as a string on both sides. */
  type UserId = string

  /** An instant (a `createdAt`, a `lastLogout`, a client clock reading); only ever copied. */
  type Timestamp = nat

  /** JavaScript truthiness of a request field that should hold a string:
      a missing field, `null` and `""` are all falsy. */
  predicate Given(field: Option<string>)
  {
    field.Some? && field.value != ""
  }

  /** JavaScript truthiness of a user id read from the request
      (`req.user?._id`): a missing id and `""` are falsy. */
  predicate IdGiven(id: Option<UserId>)
  {
    id.Some? && id.value != ""
  }

  /** `payload || fallback`, for an optional string payload. */
  function OrElse(payload: Option<string>, fallback: string): (s: string)
    ensures Given(payload) ==> s == payload.value
    ensures !Given(payload) ==> s == fallback
  {
    if Given(payload) then payload.value else fallback
  }

  /** A user document as the directory stores it. */
  datatype User = User(
    id: UserId,
    fullname: string,
    username: string,
    gender: Option<string>,
    avatar: string,
    password: string,
    lastLogout: Option<Timestamp>)

  /** A user document selected with "-password". */
  datatype Profile = Profile(
    id: UserId,
    fullname: string,
    username: string,
    gender: Option<string>,
    avatar: string,
    lastLogout: Option<Timestamp>)

  function PublicProfile(u: User): Profile
  {
    Profile(u.id, u.fullname, u.username, u.gender, u.avatar, u.lastLogout)
  }

  /** The five public fields a chat-list entry carries about its counterpart
      (`_id fullname username avatar lastLogout`). */
  datatype Contact = Contact(
    id: UserId,
    fullname: string,
    username: string,
    avatar: string,
    lastLogout: Option<Timestamp>)

  /** One row of the chat list: the counterpart and the last message's
      body, time and sender, each of which may be null. */
  datatype ChatEntry = ChatEntry(
    contact: Contact,
    lastMessage: Option<string>,
    time: Option<Timestamp>,
    senderId: Option<UserId>)

  /** No two entries of the list share an `_id`. */
  predicate DistinctIds(list: seq<ChatEntry>)
  {
    forall i, j :: 0 <= i < j < |list| ==> list[i].contact.id != list[j].contact.id
  }
}
