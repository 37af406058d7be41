/**
 * The records LCViewModel.kt stores in the document database (UserData, ChatUser,
 * ChatData) and their encoding as documents. A document is a map from field path
 * to value; `None` is a stored null. A nested field is addressed by its dotted
 * path ("user1.userId"), as a query filter addresses it.
 */
module Records {
  import opened Wrappers

  type Doc = map<string, Option<string>>

  /** The value a typed read (`toObject`) finds under `f`: absent and null both read as null. */
  function Field(d: Doc, f: string): Option<string> {
    if f in d then d[f] else None
  }

  /** The document satisfies the query filter `equalTo(f, v)`. */
  predicate FieldIs(d: Doc, f: string, v: Option<string>) {
    f in d && d[f] == v
  }

  /** A user profile, built with properties userId, name, userNumber and imageUrl. */
  datatype UserData = UserData(userId: Option<string>, name: Option<string>,
                               userNumber: Option<string>, imageUrl: Option<string>)

  /** The participant snapshot embedded in a chat, built with userId, userName, image and number. */
  datatype ChatUser = ChatUser(userId: Option<string>, userName: Option<string>,
                               image: Option<string>, number: Option<string>)

  datatype ChatData = ChatData(chatId: Option<string>, user1: ChatUser, user2: ChatUser)

  const UserFields: set<string> := {"userId", "name", "userNumber", "imageUrl"}

  /**
   * The document `set(userData)` writes: one field per property, nulls
   * included. Reading it back gives the profile.
   */
  function UserDoc(u: UserData): (d: Doc)
    ensures DocUser(d) == u
  {
    map["userId" := u.userId, "name" := u.name, "userNumber" := u.userNumber, "imageUrl" := u.imageUrl]
  }

  /** `toObject<UserData>()` */
  function DocUser(d: Doc): (u: UserData)
    ensures u.userId == Field(d, "userId") && u.name == Field(d, "name")
    ensures u.userNumber == Field(d, "userNumber") && u.imageUrl == Field(d, "imageUrl")
  {
    UserData(Field(d, "userId"), Field(d, "name"), Field(d, "userNumber"), Field(d, "imageUrl"))
  }

  /** A stored profile has exactly the four property fields, so no field named "number". */
  lemma UserDocFields(u: UserData)
    ensures UserDoc(u).Keys == UserFields
    ensures "number" !in UserDoc(u)
  {
  }

  const ChatFieldPaths: set<string> :=
    {"chatId", "user1.userId", "user1.userName", "user1.image", "user1.number",
     "user2.userId", "user2.userName", "user2.image", "user2.number"}

  /** The document `set(chatData)` writes; reading it back gives the chat. */
  function ChatDoc(c: ChatData): (d: Doc)
    ensures DocChat(d) == c
  {
    map["chatId" := c.chatId,
        "user1.userId" := c.user1.userId, "user1.userName" := c.user1.userName,
        "user1.image" := c.user1.image, "user1.number" := c.user1.number,
        "user2.userId" := c.user2.userId, "user2.userName" := c.user2.userName,
        "user2.image" := c.user2.image, "user2.number" := c.user2.number]
  }

  /** `toObject<ChatData>()` */
  function DocChat(d: Doc): (c: ChatData)
    ensures c.chatId == Field(d, "chatId")
    ensures c.user1.userId == Field(d, "user1.userId") && c.user2.userId == Field(d, "user2.userId")
  {
    ChatData(Field(d, "chatId"),
             ChatUser(Field(d, "user1.userId"), Field(d, "user1.userName"), Field(d, "user1.image"), Field(d, "user1.number")),
             ChatUser(Field(d, "user2.userId"), Field(d, "user2.userName"), Field(d, "user2.image"), Field(d, "user2.number")))
  }

  /** A stored chat has the nine fields of its properties; the participants' numbers sit under "number". */
  lemma ChatDocFields(c: ChatData)
    ensures ChatDoc(c).Keys == ChatFieldPaths
    ensures "user1.userNumber" !in ChatDoc(c) && "user2.userNumber" !in ChatDoc(c)
    ensures FieldIs(ChatDoc(c), "user1.number", c.user1.number) && FieldIs(ChatDoc(c), "user2.number", c.user2.number)
    ensures FieldIs(ChatDoc(c), "user1.userId", c.user1.userId) && FieldIs(ChatDoc(c), "user2.userId", c.user2.userId)
  {
  }

  /** The snapshot of a profile embedded in a new chat (LCViewModel.kt:330-341). */
  function Snapshot(u: UserData): (p: ChatUser)
    ensures p.userId == u.userId && p.userName == u.name && p.image == u.imageUrl && p.number == u.userNumber
  {
    ChatUser(u.userId, u.name, u.imageUrl, u.userNumber)
  }
}
