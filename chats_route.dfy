/** `GET /api/chats` (the caller's chats, newest first) and `POST /api/chats` (a new empty chat). */
module ChatsRoute {
  import opened Wrappers
  import opened Store
  import opened Encryption
  import opened ChatModel
  import Query

  /** The parsed request body of `POST`; `title` is `None` when absent. */
  datatype CreateRequest = CreateRequest(title: Option<string>)

  /** `Chat.find({ userId }).sort({ createdAt: -1 })`. */
  function OwnChatsNewestFirst(chats: seq<StoredChat>, userId: string): seq<StoredChat> {
    Query.FindSorted(chats, OwnedBy(userId), CreatedAt())
  }

  /** `GET`: every chat of the caller and no other, newest first, each read through the getters. */
  method Get(db: Database, c: Cipher, userId: Option<string>, sessionId: Option<string>, connected: bool)
    returns (reply: Reply<seq<ChatView>>)
    ensures !SignedIn(userId) ==> reply == Unauthorized()
    ensures SignedIn(userId) && !connected ==> reply == InternalError()
    ensures SignedIn(userId) && connected ==>
      var listed := OwnChatsNewestFirst(db.chats, userId.value);
      && reply.Json? && |reply.body| == |listed|
      && (forall i :: 0 <= i < |listed| ==> reply.body[i] == ReadChat(c, sessionId, listed[i]))
      && (forall ch :: ch in listed <==> ch in db.chats && ch.userId == userId.value)
      && (forall i, j :: 0 <= i < j < |reply.body| ==> reply.body[i].createdAt >= reply.body[j].createdAt)
  {
    if !SignedIn(userId) {
      return Unauthorized();
    }
    if !connected {
      return InternalError();
    }
    var listed := OwnChatsNewestFirst(db.chats, userId.value);
    Query.FindSortedSpec(db.chats, OwnedBy(userId.value), CreatedAt());
    reply := Json(seq(|listed|, i requires 0 <= i < |listed| => ReadChat(c, sessionId, listed[i])));
  }

  /** `POST`: a chat owned by the caller with the given title and no messages; a missing title, a missing
      session (the title cannot be encrypted) or any other failure is a 500 that stores nothing. */
  method Post(db: Database, c: Cipher, userId: Option<string>, sessionId: Option<string>,
              body: Option<CreateRequest>, connected: bool, now: int) returns (reply: Reply<ChatView>)
    requires db.Valid()
    modifies db
    ensures db.Valid()
    ensures unchanged(db`users, db`checkIns, db`dietPlans, db`recommendations)
    ensures !SignedIn(userId) ==> reply == Unauthorized() && unchanged(db)
    ensures SignedIn(userId) && (body.None? || !connected) ==> reply == InternalError() && unchanged(db)
    ensures SignedIn(userId) && body.Some? && connected ==>
      var created := NewChat(c, sessionId, old(db.nextId), userId.value, body.value.title, [], now);
      && (created.Failure? ==> reply == InternalError() && unchanged(db))
      && (created.Success? ==>
            && created.value.userId == userId.value && created.value.messages == []
            && db.chats == old(db.chats) + [created.value]
            && db.nextId == old(db.nextId) + 1 && old(db.Unused(created.value.id))
            && reply == Json(ReadChat(c, sessionId, created.value)))
  {
    if !SignedIn(userId) {
      return Unauthorized();
    }
    if body.None? || !connected {
      return InternalError();
    }
    var created := NewChat(c, sessionId, db.nextId, userId.value, body.value.title, [], now);
    if created.Failure? {
      return InternalError();
    }
    var _ := db.NewId();
    db.chats := db.chats + [created.value];
    reply := Json(ReadChat(c, sessionId, created.value));
  }
}
