/**
 * The decisions of LCViewModel.kt as functions over a value of the whole
 * observable state plus the backend. Every asynchronous Firebase call is one
 * synchronous step whose outcome is a parameter; a snapshot listener delivers
 * one emission at the moment it is attached. Each function here specifies the
 * method of the same name in ViewModel.LCViewModel.
 */
module Coordinator {
  import opened Wrappers
  import opened Records
  import opened Store
  import opened Validation

  /** A thrown exception; only its `localizedMessage` is observable. */
  datatype Exception = Exception(localizedMessage: Option<string>)

  /** How one backend call or listener emission ended. */
  datatype Outcome = Success | Failure(error: Exception)

  /** How an authentication call ended; on success the signed-in account's uid. */
  datatype AuthReply = AuthOk(uid: string) | AuthFailed(error: Exception)

  /** The first emissions of the profile listener and of the chat-roster listener it starts. */
  datatype ListenReplies = ListenReplies(user: Outcome, chats: Outcome)

  /** Replies seen by `createOrUpdateProfile`: the document read, the write, then the listeners. */
  datatype ProfileReplies = ProfileReplies(read: Outcome, write: Outcome, listen: ListenReplies)

  /** Replies seen by `onAddChat`, and the id the database generates for the new chat document. */
  datatype ChatReplies = ChatReplies(existing: Outcome, partner: Outcome, freshId: string,
                                     write: Outcome, roster: Outcome)

  /** A request sent to the authentication service or the database. */
  datatype Request =
    | QueryUsers(field: string, value: string)
    | CreateAccount(email: string, password: string)
    | SignInAccount(email: string, password: string)
    | SignOutAccount
    | GetUserDoc(uid: string)
    | UpdateUserDoc(uid: string)
    | SetUserDoc(uid: string)
    | ListenUserDoc(uid: string)
    | QueryChats(number: string, otherNumber: Option<string>)
    | ListenChats(userId: Option<string>)
    | SetChatDoc(chatId: string)

  /**
   * `signIn`, `inProcess`, `userData` and `chats` are the view model's state;
   * `events` lists every message published through `eventMutableState`, the
   * last one being the current event; `requests` lists every backend request.
   */
  datatype Session = Session(signIn: bool, inProcess: bool, userData: Option<UserData>,
                             chats: seq<ChatData>, events: seq<string>, backend: Backend,
                             requests: seq<Request>)

  /** Operations only append to the message and request logs. */
  predicate Extends(s: Session, r: Session) {
    s.events <= r.events && s.requests <= r.requests
  }

  function Publish(s: Session, message: string): Session {
    s.(events := s.events + [message])
  }

  function Issue(s: Session, q: Request): Session {
    s.(requests := s.requests + [q])
  }

  /** The message `handleException` publishes (LCViewModel.kt:273-274). */
  function ErrorMessage(exception: Option<Exception>, customMessage: string): (m: string)
    ensures customMessage != "" ==> m == customMessage
    ensures customMessage == "" && exception.None? ==> m == ""
    ensures customMessage == "" && exception.Some? ==> m == exception.value.localizedMessage.GetOr("")
  {
    var errorMsg := if exception.Some? then exception.value.localizedMessage.GetOr("") else "";
    if customMessage == "" then errorMsg else customMessage
  }

  function HandleException(s: Session, exception: Option<Exception>, customMessage: string): (r: Session)
    ensures Extends(s, r) && |r.events| == |s.events| + 1
    ensures r == s.(events := s.events + [ErrorMessage(exception, customMessage)])
    ensures r.events[|s.events|] == ErrorMessage(exception, customMessage)
  {
    Publish(s, ErrorMessage(exception, customMessage))
  }

  /** `populateChats()`: attach the roster listener and take its emission. */
  function PopulateChats(s: Session, reply: Outcome): (r: Session)
    ensures Extends(s, r)
    ensures r.(chats := s.chats, events := s.events, requests := s.requests) == s
  {
    match s.userData
    case None => s
    case Some(me) =>
      var s1 := Issue(s, ListenChats(me.userId));
      match reply
      case Failure(e) => HandleException(s1, Some(e), "Failed to fetch chats")
      case Success => s1.(chats := Roster(s.backend.chats, me.userId))
  }

  /** What `toObject<UserData>()` gives for the document `uid`: null when it does not exist. */
  function LoadedUser(b: Backend, uid: string): (u: Option<UserData>)
    ensures u.Some? <==> uid in b.users
    ensures u.Some? ==> u.value.userId == Field(b.users[uid], "userId") && u.value.name == Field(b.users[uid], "name")
    ensures u.Some? ==> u.value.userNumber == Field(b.users[uid], "userNumber")
    ensures u.Some? ==> u.value.imageUrl == Field(b.users[uid], "imageUrl")
  {
    if uid in b.users then Some(DocUser(b.users[uid])) else None
  }

  /** `getUserData(uid)`: attach the profile listener, then take its emission. */
  function GetUserData(s: Session, uid: string, listen: ListenReplies): (r: Session)
    ensures Extends(s, r)
    ensures r.backend == s.backend && r.signIn == s.signIn
  {
    DeliverUser(Issue(s, ListenUserDoc(uid)), uid, listen)
  }

  /** The profile listener's emission (LCViewModel.kt:221-231), delivered once the current callback has returned. */
  function DeliverUser(s: Session, uid: string, listen: ListenReplies): (r: Session)
    ensures Extends(s, r)
    ensures r.backend == s.backend && r.signIn == s.signIn
  {
    match listen.user
    case Failure(e) => HandleException(s, Some(e), "Cannot retrieve User")
    case Success => PopulateChats(s.(userData := LoadedUser(s.backend, uid), inProcess := false), listen.chats)
  }

  /** The state the `init` block leaves. */
  function Init(b: Backend, listen: ListenReplies): (r: Session)
    ensures r.signIn == b.currentUid.Some? && r.backend == b
  {
    var s := Session(b.currentUid.Some?, false, None, [], [], b, []);
    if b.currentUid.Some? then GetUserData(s, b.currentUid.value, listen) else s
  }

  /** The profile `createOrUpdateProfile` builds (LCViewModel.kt:165-170). */
  function ProfileFor(uid: string, name: Option<string>, number: Option<string>, image: Option<string>,
                      loaded: Option<UserData>): (u: UserData)
    ensures u.userId == Some(uid) && u.name == name && u.userNumber == number
    ensures image.Some? ==> u.imageUrl == image
    ensures image.None? && loaded.Some? ==> u.imageUrl == loaded.value.imageUrl
    ensures image.None? && loaded.None? ==> u.imageUrl == None
  {
    UserData(Some(uid), name, number, if image.Some? then image else if loaded.Some? then loaded.value.imageUrl else None)
  }

  function CreateOrUpdateProfile(s: Session, name: Option<string>, number: Option<string>,
                                 image: Option<string>, replies: ProfileReplies): (r: Session)
    ensures Extends(s, r) && r.signIn == s.signIn
    ensures r.backend.accounts == s.backend.accounts && r.backend.currentUid == s.backend.currentUid
    ensures r.backend.chats == s.backend.chats
  {
    match s.backend.currentUid
    case None => HandleException(s, None, "User not authenticated")
    case Some(uid) =>
      if NullOrEmpty(name) || NullOrEmpty(number) then HandleException(s, None, "Name and Number cannot be empty")
      else SaveProfile(s.(inProcess := true), uid, ProfileFor(uid, name, number, image, s.userData), replies)
  }

  /** The read of the profile document and its callbacks (LCViewModel.kt:172-202). */
  function SaveProfile(s: Session, uid: string, updated: UserData, replies: ProfileReplies): (r: Session)
    ensures Extends(s, r) && r.signIn == s.signIn
    ensures r.backend.accounts == s.backend.accounts && r.backend.currentUid == s.backend.currentUid
    ensures r.backend.chats == s.backend.chats
  {
    var s1 := Issue(s, GetUserDoc(uid));
    match replies.read
    case Failure(e) => HandleException(s1, Some(e), "Error checking profile existence").(inProcess := false)
    case Success => WriteProfile(s1, uid, updated, replies)
  }

  /** The update or set of the profile document and its callbacks (LCViewModel.kt:176-197). */
  function WriteProfile(s: Session, uid: string, updated: UserData, replies: ProfileReplies): (r: Session)
    ensures Extends(s, r) && r.signIn == s.signIn
    ensures r.backend.accounts == s.backend.accounts && r.backend.currentUid == s.backend.currentUid
    ensures r.backend.chats == s.backend.chats
  {
    var existed := uid in s.backend.users;
    var s2 := Issue(s, if existed then UpdateUserDoc(uid) else SetUserDoc(uid));
    match replies.write
    case Failure(e) => HandleException(s2, Some(e), "Failed to save profile").(inProcess := false)
    case Success => ProfileSaved(s2.(backend := SaveUser(s.backend, uid, updated)), uid, existed, replies.listen)
  }

  /**
   * The success callback of the profile write (LCViewModel.kt:188-193): it
   * attaches the profile listener, clears `inProcess` and publishes; the
   * listener's emission arrives after the callback has returned.
   */
  function ProfileSaved(s: Session, uid: string, existed: bool, listen: ListenReplies): (r: Session)
    ensures Extends(s, r) && r.signIn == s.signIn && r.backend == s.backend && !r.inProcess
    ensures |r.events| > |s.events|
    ensures r.events[|s.events|] == if existed then "Profile updated successfully" else "Profile created successfully"
    ensures |r.requests| > |s.requests| && r.requests[|s.requests|] == ListenUserDoc(uid)
  {
    var s1 := Issue(s, ListenUserDoc(uid)).(inProcess := false);
    DeliverUser(Publish(s1, if existed then "Profile updated successfully" else "Profile created successfully"), uid, listen)
  }

  function SignUp(s: Session, name: string, number: string, email: string, password: string,
                  query: Outcome, create: AuthReply, profile: ProfileReplies): (r: Session)
    ensures Extends(s, r)
    ensures r.backend.chats == s.backend.chats
  {
    var s0 := s.(inProcess := true);
    if PasswordTooShort(password) then Publish(s0, "Password must be more than 6 characters")
    else if AnyEmpty(name, number, email, password) then HandleException(s0, None, "Some fields are empty")
    else RegisterIfNumberFree(s0, name, number, email, password, query, create, profile)
  }

  /** The duplicate-number query and its callbacks (LCViewModel.kt:92-113). */
  function RegisterIfNumberFree(s: Session, name: string, number: string, email: string, password: string,
                                query: Outcome, create: AuthReply, profile: ProfileReplies): (r: Session)
    ensures Extends(s, r) && !r.inProcess
    ensures r.backend.chats == s.backend.chats
  {
    var s1 := Issue(s, QueryUsers("number", number));
    match query
    case Failure(e) => HandleException(s1, Some(e), "Failed to check number existence").(inProcess := false)
    case Success =>
      if UsersWhere(s.backend, "number", number) != [] then
        HandleException(s1, None, "Number already exists").(inProcess := false)
      else CreateAccountAndProfile(s1, name, number, email, password, create, profile)
  }

  /** Account creation and its callback (LCViewModel.kt:101-109). */
  function CreateAccountAndProfile(s: Session, name: string, number: string, email: string, password: string,
                                   create: AuthReply, profile: ProfileReplies): (r: Session)
    ensures Extends(s, r) && !r.inProcess
    ensures r.backend.chats == s.backend.chats
  {
    var s2 := Issue(s, CreateAccount(email, password));
    match create
    case AuthFailed(e) => HandleException(s2, Some(e), "Sign-up Failed").(inProcess := false)
    case AuthOk(uid) =>
      var signedUp := s.backend.(accounts := s.backend.accounts + {Account(email, password, uid)},
                                 currentUid := Some(uid));
      CreateOrUpdateProfile(s2.(signIn := true, backend := signedUp), Some(name), Some(number), None, profile)
        .(inProcess := false)
  }

  function SignIn(s: Session, email: string, password: string, reply: AuthReply,
                  listen: ListenReplies): (r: Session)
    ensures Extends(s, r)
    ensures r.backend.users == s.backend.users && r.backend.order == s.backend.order
    ensures r.backend.chats == s.backend.chats && r.backend.accounts == s.backend.accounts
  {
    if email == "" || password == "" then HandleException(s, None, "Please fill in all fields")
    else
      var s1 := Issue(s.(inProcess := true), SignInAccount(email, password));
      match reply
      case AuthFailed(e) => HandleException(s1, Some(e), "Login Failed")
      case AuthOk(uid) =>
        GetUserData(s1.(signIn := true, inProcess := false, backend := s.backend.(currentUid := Some(uid))), uid, listen)
  }

  function SignOut(s: Session): (r: Session)
    ensures Extends(s, r) && r.events == s.events
    ensures !r.signIn && r.backend.currentUid.None?
    ensures r.userData == s.userData && r.chats == s.chats && r.inProcess == s.inProcess
  {
    Issue(s, SignOutAccount).(signIn := false, backend := s.backend.(currentUid := None))
  }

  /** The chat `onAddChat` builds (LCViewModel.kt:328-342). */
  function NewChat(chatId: string, me: UserData, partner: UserData): (c: ChatData)
    ensures c.chatId == Some(chatId)
    ensures c.user1.userId == me.userId && c.user1.userName == me.name
    ensures c.user1.image == me.imageUrl && c.user1.number == me.userNumber
    ensures c.user2.userId == partner.userId && c.user2.userName == partner.name
    ensures c.user2.image == partner.imageUrl && c.user2.number == partner.userNumber
  {
    ChatData(Some(chatId), Snapshot(me), Snapshot(partner))
  }

  function OnAddChat(s: Session, number: string, replies: ChatReplies): (r: Session)
    ensures Extends(s, r)
    ensures r.signIn == s.signIn && r.inProcess == s.inProcess && r.userData == s.userData
    ensures r.backend.(chats := s.backend.chats) == s.backend
  {
    if RejectsNumber(number) then HandleException(s, None, "Invalid number. Please enter digits only.")
    else
      match s.userData
      case None => HandleException(s, None, "User data is unavailable")
      case Some(me) => AddChatIfAbsent(s, number, me, replies)
  }

  /** The existence query over chats and its callbacks (LCViewModel.kt:296-360). */
  function AddChatIfAbsent(s: Session, number: string, me: UserData, replies: ChatReplies): (r: Session)
    ensures Extends(s, r)
    ensures r.signIn == s.signIn && r.inProcess == s.inProcess && r.userData == s.userData
    ensures r.backend.(chats := s.backend.chats) == s.backend
  {
    var s1 := Issue(s, QueryChats(number, me.userNumber));
    match replies.existing
    case Failure(e) => HandleException(s1, Some(e), "Failed to check existing chats")
    case Success =>
      if ChatExists(s.backend.chats, number, me.userNumber) then HandleException(s1, None, "Chat already exists")
      else AddChatWithPartner(s1, number, me, replies)
  }

  /** The partner query, the chat write and their callbacks (LCViewModel.kt:317-356). */
  function AddChatWithPartner(s: Session, number: string, me: UserData, replies: ChatReplies): (r: Session)
    ensures Extends(s, r)
    ensures r.signIn == s.signIn && r.inProcess == s.inProcess && r.userData == s.userData
    ensures r.backend.(chats := s.backend.chats) == s.backend
  {
    var s2 := Issue(s, QueryUsers("userNumber", number));
    match replies.partner
    case Failure(e) => HandleException(s2, Some(e), "Failed to check user existence")
    case Success =>
      var found := UsersWhere(s.backend, "userNumber", number);
      if found == [] then HandleException(s2, None, "User not found")
      else WriteChat(s2, NewChat(replies.freshId, me, DocUser(found[0])), replies)
  }

  /** The write of the new chat document and its callbacks (LCViewModel.kt:345-352). */
  function WriteChat(s: Session, chat: ChatData, replies: ChatReplies): (r: Session)
    ensures Extends(s, r)
    ensures r.signIn == s.signIn && r.inProcess == s.inProcess && r.userData == s.userData
    ensures r.backend.(chats := s.backend.chats) == s.backend
    ensures replies.write.Failure? ==> r.backend == s.backend && r.events == s.events + ["Failed to create chat"]
  {
    var s3 := Issue(s, SetChatDoc(replies.freshId));
    match replies.write
    case Failure(e) => HandleException(s3, Some(e), "Failed to create chat")
    case Success => ChatSaved(s3.(backend := s.backend.(chats := s.backend.chats + [ChatDoc(chat)])), replies.roster)
  }

  /** The success callback of the chat write (LCViewModel.kt:346-349). */
  function ChatSaved(s: Session, roster: Outcome): (r: Session)
    ensures Extends(s, r) && |r.events| > |s.events| && r.events[|s.events|] == "Chat added successfully"
    ensures r.(chats := s.chats, events := s.events, requests := s.requests) == s
  {
    PopulateChats(Publish(s, "Chat added successfully"), roster)
  }
}
