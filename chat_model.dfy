/**
 * The `Chat` collection's schema. A chat's `title` and each message's `content` pass through the
 * encrypting setter on write and through the decrypt-or-keep getter on read.
 */
module ChatModel {
  import opened Wrappers
  import opened Encryption

  datatype Role = User | System | Assistant

  function RoleName(r: Role): string {
    match r
    case User => "user"
    case System => "system"
    case Assistant => "assistant"
  }

  /** Enum membership of a message's `role`. */
  function ParseRole(s: string): (r: Option<Role>)
    ensures r.Some? <==> s == "user" || s == "system" || s == "assistant"
    ensures r.Some? ==> RoleName(r.value) == s
  {
    if s == "user" then Some(User) else if s == "system" then Some(System)
    else if s == "assistant" then Some(Assistant) else None
  }

  lemma RoleNameParses(r: Role)
    ensures ParseRole(RoleName(r)) == Some(r)
  {
  }

  /** A message subdocument as stored: `content` is ciphertext. */
  datatype StoredMessage = StoredMessage(content: string, role: Role, createdAt: int)

  /** A chat document as stored: `title` is ciphertext; messages are kept in insertion order. */
  datatype StoredChat = StoredChat(id: nat, userId: string, title: string, messages: seq<StoredMessage>, createdAt: int)

  /** What the getters hand out. */
  datatype MessageView = MessageView(content: string, role: Role, createdAt: int)
  datatype ChatView = ChatView(id: nat, userId: string, title: string, messages: seq<MessageView>, createdAt: int)

  const RequiredError: string := "Validation failed: path is required"
  const EnumError: string := "Validation failed: not a valid enum value"

  /** A `required: true` string path with an encrypting setter. The setter runs when the value is
      assigned, so the `required` validator sees the ciphertext; without a usable session the setter throws. */
  function SetEncryptedRequired(c: Cipher, session: Option<string>, value: Option<string>): (r: Result<string, string>)
    ensures r.Success? <==> value.Some? && session.Some? && session.value != "" && c.encrypt(session.value, value.value) != ""
    ensures r.Success? ==> EncryptField(c, session, value.value) == Success(r.value)
    ensures value.Some? && (session.None? || session.value == "") ==> r == Failure(NoSessionError)
  {
    match value
    case None => Failure(RequiredError)
    case Some(plain) =>
      match EncryptField(c, session, plain)
      case Failure(e) => Failure(e)
      case Success(cipherText) => if cipherText == "" then Failure(RequiredError) else Success(cipherText)
  }

  /** A new message subdocument: `content` required and encrypted, `role` required and in the enum,
      `createdAt` defaulting to now. */
  function NewMessage(c: Cipher, session: Option<string>, content: Option<string>, role: Option<string>, now: int)
    : (r: Result<StoredMessage, string>)
    ensures r.Success? <==>
      SetEncryptedRequired(c, session, content).Success? && role.Some? && ParseRole(role.value).Some?
    ensures r.Success? ==>
      && Success(r.value.content) == SetEncryptedRequired(c, session, content)
      && RoleName(r.value.role) == role.value
      && r.value.createdAt == now
  {
    match SetEncryptedRequired(c, session, content)
    case Failure(e) => Failure(e)
    case Success(stored) =>
      match role
      case None => Failure(RequiredError)
      case Some(name) =>
        match ParseRole(name)
        case None => Failure(EnumError)
        case Some(rl) => Success(StoredMessage(stored, rl, now))
  }

  /** A new chat document: `userId` and `title` required, `title` encrypted, `createdAt` defaulting to now. */
  function NewChat(c: Cipher, session: Option<string>, id: nat, userId: string, title: Option<string>,
                   messages: seq<StoredMessage>, now: int): (r: Result<StoredChat, string>)
    ensures r.Success? <==> userId != "" && SetEncryptedRequired(c, session, title).Success?
    ensures r.Success? ==>
      && r.value.id == id && r.value.userId == userId && r.value.messages == messages && r.value.createdAt == now
      && Success(r.value.title) == SetEncryptedRequired(c, session, title)
  {
    if userId == "" then Failure(RequiredError)
    else
      match SetEncryptedRequired(c, session, title)
      case Failure(e) => Failure(e)
      case Success(stored) => Success(StoredChat(id, userId, stored, messages, now))
  }

  /** A message read through the getter: the decrypted content, or the stored text when decryption
      throws; the role and time as stored. */
  function ReadMessage(c: Cipher, session: Option<string>, m: StoredMessage): (v: MessageView)
    ensures v.role == m.role && v.createdAt == m.createdAt
    ensures DecryptField(c, session, m.content).Success? ==> Some(v.content) == c.decrypt(session.value, m.content)
    ensures DecryptField(c, session, m.content).Failure? ==> v.content == m.content
  {
    MessageView(ReadField(c, session, m.content), m.role, m.createdAt)
  }

  /** `toJSON({ getters: true })`: every encrypted path read through its getter, nothing else changed;
      the messages keep their positions. */
  function ReadChat(c: Cipher, session: Option<string>, ch: StoredChat): (v: ChatView)
    ensures v.id == ch.id && v.userId == ch.userId && v.createdAt == ch.createdAt
    ensures v.title == ReadField(c, session, ch.title)
    ensures |v.messages| == |ch.messages|
    ensures forall i :: 0 <= i < |ch.messages| ==> v.messages[i] == ReadMessage(c, session, ch.messages[i])
  {
    ChatView(ch.id, ch.userId, ReadField(c, session, ch.title),
             seq(|ch.messages|, i requires 0 <= i < |ch.messages| => ReadMessage(c, session, ch.messages[i])),
             ch.createdAt)
  }

  /** A chat created under a session reads back, under the same session, with the title it was given. */
  lemma NewChatReadsBack(c: Cipher, key: string, id: nat, userId: string, title: string, now: int)
    requires RoundTrips(c, key, title)
    requires NewChat(c, Some(key), id, userId, Some(title), [], now).Success?
    ensures ReadChat(c, Some(key), NewChat(c, Some(key), id, userId, Some(title), [], now).value)
         == ChatView(id, userId, title, [], now)
  {
  }

  /** A chat whose title and every message were written under one session reads back, under that
      session, with the plaintext title and, at every position, that message's plaintext, role and time. */
  lemma StoredChatReadsBack(c: Cipher, key: string, ch: StoredChat, title: string, contents: seq<string>)
    requires EncryptField(c, Some(key), title) == Success(ch.title) && RoundTrips(c, key, title)
    requires |contents| == |ch.messages|
    requires forall i :: 0 <= i < |contents| ==>
               EncryptField(c, Some(key), contents[i]) == Success(ch.messages[i].content) && RoundTrips(c, key, contents[i])
    ensures ReadChat(c, Some(key), ch).title == title
    ensures |ReadChat(c, Some(key), ch).messages| == |contents|
    ensures forall i :: 0 <= i < |contents| ==>
              ReadChat(c, Some(key), ch).messages[i] == MessageView(contents[i], ch.messages[i].role, ch.messages[i].createdAt)
  {
    WriteThenRead(c, key, title);
    forall i | 0 <= i < |contents|
      ensures ReadChat(c, Some(key), ch).messages[i] == MessageView(contents[i], ch.messages[i].role, ch.messages[i].createdAt)
    {
      WriteThenRead(c, key, contents[i]);
    }
  }

  /** A message created under a session reads back, under the same session, with its content and role. */
  lemma NewMessageReadsBack(c: Cipher, key: string, content: string, role: Role, now: int)
    requires RoundTrips(c, key, content)
    requires NewMessage(c, Some(key), Some(content), Some(RoleName(role)), now).Success?
    ensures ReadMessage(c, Some(key), NewMessage(c, Some(key), Some(content), Some(RoleName(role)), now).value)
         == MessageView(content, role, now)
  {
  }

  /** An empty title or content is accepted whenever its ciphertext is not empty: `required` only ever
      sees the ciphertext. */
  lemma EmptyTitleAccepted(c: Cipher, key: string, id: nat, userId: string, now: int)
    requires key != "" && userId != "" && c.encrypt(key, "") != ""
    ensures NewChat(c, Some(key), id, userId, Some(""), [], now).Success?
  {
  }

  function OwnedBy(userId: string): StoredChat -> bool {
    (ch: StoredChat) => ch.userId == userId
  }

  function CreatedAt(): StoredChat -> int {
    (ch: StoredChat) => ch.createdAt
  }
}
