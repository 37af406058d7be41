/**
 * LCViewModel: the observable state fields the screens read, updated step by
 * step, over an in-memory backend. Each method is specified by a function in
 * Coordinator, applied to the state before the call: the function of the same
 * name, `Publish` for `PublishEvent`, and `Init` for the constructor.
 */
module ViewModel {
  import opened Wrappers
  import opened Records
  import opened Store
  import opened Validation
  import opened Coordinator
  import Events
  import CoordinatorFacts
  import FieldNames

  class LCViewModel {
    var inProcess: bool
    var chats: seq<ChatData>
    var eventMutableState: Events.Event?<string>
    var signIn: bool
    var userData: Option<UserData>
    /** The user and chat collections and the authentication service. */
    var backend: Backend
    /** Every message published through `eventMutableState`, oldest first. */
    ghost var events: seq<string>
    /** Every request sent to the backend, oldest first. */
    ghost var requests: seq<Request>

    /** The current event box carries the last published message. */
    ghost predicate Valid()
      reads this
    {
      && (eventMutableState == null <==> events == [])
      && (eventMutableState != null ==> eventMutableState.content == events[|events| - 1])
    }

    /**
     * A call that published a message left a new, unconsumed event box behind;
     * one that published nothing left the old box in place.
     */
    twostate predicate Announced()
      reads this, eventMutableState
    {
      if |events| == |old(events)| then eventMutableState == old(eventMutableState)
      else eventMutableState != null && fresh(eventMutableState) && eventMutableState.Valid()
           && !eventMutableState.hasBeenHandled
    }

    ghost function View(): Session
      reads this
    {
      Session(signIn, inProcess, userData, chats, events, backend, requests)
    }

    /** The `init` block: signed in when the backend already has a current user, whose profile is then loaded. */
    constructor (initial: Backend, listen: ListenReplies)
      requires Consistent(initial)
      ensures Valid() && View() == Init(initial, listen)
      ensures Consistent(backend)
    {
      inProcess := false;
      chats := [];
      eventMutableState := null;
      signIn := initial.currentUid.Some?;
      userData := None;
      backend := initial;
      events := [];
      requests := [];
      new;
      if initial.currentUid.Some? {
        GetUserData(initial.currentUid.value, listen);
      }
    }

    /** `eventMutableState.value = Event(message)` */
    method PublishEvent(message: string)
      requires Valid()
      modifies this
      ensures Valid() && View() == Publish(old(View()), message)
      ensures Announced() && |events| == |old(events)| + 1
    {
      eventMutableState := new Events.Event(message);
      events := events + [message];
    }

    method HandleException(exception: Option<Exception>, customMessage: string)
      requires Valid()
      modifies this
      ensures Valid() && View() == Coordinator.HandleException(old(View()), exception, customMessage)
      ensures Announced() && |events| == |old(events)| + 1
    {
      var errorMsg := if exception.Some? then exception.value.localizedMessage.GetOr("") else "";
      var message := if customMessage == "" then errorMsg else customMessage;
      PublishEvent(message);
    }

    method PopulateChats(reply: Outcome)
      requires Valid()
      modifies this
      ensures Valid() && View() == Coordinator.PopulateChats(old(View()), reply)
      ensures Announced()
    {
      if userData.None? {
        return;
      }
      var currentUser := userData.value;
      requests := requests + [ListenChats(currentUser.userId)];
      match reply
      case Failure(e) =>
        HandleException(Some(e), "Failed to fetch chats");
      case Success =>
        chats := Roster(backend.chats, currentUser.userId);
    }

    method GetUserData(uid: string, listen: ListenReplies)
      requires Valid()
      modifies this
      ensures Valid() && View() == Coordinator.GetUserData(old(View()), uid, listen)
      ensures Announced()
    {
      requests := requests + [ListenUserDoc(uid)];
      DeliverUser(uid, listen);
    }

    /** The profile listener's emission. */
    method DeliverUser(uid: string, listen: ListenReplies)
      requires Valid()
      modifies this
      ensures Valid() && View() == Coordinator.DeliverUser(old(View()), uid, listen)
      ensures Announced()
    {
      match listen.user
      case Failure(e) =>
        HandleException(Some(e), "Cannot retrieve User");
      case Success =>
        userData := LoadedUser(backend, uid);
        inProcess := false;
        PopulateChats(listen.chats);
    }

    method CreateOrUpdateProfile(name: Option<string>, number: Option<string>, image: Option<string>,
                                 replies: ProfileReplies)
      requires Valid()
      modifies this
      ensures Valid() && View() == Coordinator.CreateOrUpdateProfile(old(View()), name, number, image, replies)
      ensures Announced()
      ensures Consistent(old(backend)) ==> Consistent(backend)
    {
      if Consistent(backend) {
        CoordinatorFacts.ProfileKeepsConsistent(View(), name, number, image, replies);
      }
      if backend.currentUid.None? {
        HandleException(None, "User not authenticated");
        return;
      }
      var uid := backend.currentUid.value;
      if NullOrEmpty(name) || NullOrEmpty(number) {
        HandleException(None, "Name and Number cannot be empty");
        return;
      }
      inProcess := true;
      var updatedUserData := ProfileFor(uid, name, number, image, userData);
      SaveProfile(uid, updatedUserData, replies);
    }

    method SaveProfile(uid: string, updatedUserData: UserData, replies: ProfileReplies)
      requires Valid()
      modifies this
      ensures Valid() && View() == Coordinator.SaveProfile(old(View()), uid, updatedUserData, replies)
      ensures Announced()
    {
      requests := requests + [GetUserDoc(uid)];
      if replies.read.Failure? {
        HandleException(Some(replies.read.error), "Error checking profile existence");
        inProcess := false;
      } else {
        WriteProfile(uid, updatedUserData, replies);
      }
    }

    method WriteProfile(uid: string, updatedUserData: UserData, replies: ProfileReplies)
      requires Valid()
      modifies this
      ensures Valid() && View() == Coordinator.WriteProfile(old(View()), uid, updatedUserData, replies)
      ensures Announced()
    {
      var existed := uid in backend.users;
      requests := requests + [if existed then UpdateUserDoc(uid) else SetUserDoc(uid)];
      if replies.write.Failure? {
        HandleException(Some(replies.write.error), "Failed to save profile");
        inProcess := false;
        return;
      }
      backend := SaveUser(backend, uid, updatedUserData);
      ProfileSaved(uid, existed, replies.listen);
    }

    method ProfileSaved(uid: string, existed: bool, listen: ListenReplies)
      requires Valid()
      modifies this
      ensures Valid() && View() == Coordinator.ProfileSaved(old(View()), uid, existed, listen)
      ensures Announced()
    {
      requests := requests + [ListenUserDoc(uid)];
      inProcess := false;
      PublishEvent(if existed then "Profile updated successfully" else "Profile created successfully");
      DeliverUser(uid, listen);
    }

    method SignUp(name: string, number: string, email: string, password: string,
                  query: Outcome, create: AuthReply, profile: ProfileReplies)
      requires Valid()
      modifies this
      ensures Valid() && View() == Coordinator.SignUp(old(View()), name, number, email, password, query, create, profile)
      ensures Announced()
      ensures Consistent(old(backend)) ==> Consistent(backend)
    {
      inProcess := true;
      if PasswordTooShort(password) {
        PublishEvent("Password must be more than 6 characters");
        return;
      }
      if AnyEmpty(name, number, email, password) {
        HandleException(None, "Some fields are empty");
        return;
      }
      RegisterIfNumberFree(name, number, email, password, query, create, profile);
      if Consistent(old(backend)) {
        FieldNames.SignUpKeepsConsistent(old(View()), name, number, email, password, query, create, profile);
      }
    }

    method RegisterIfNumberFree(name: string, number: string, email: string, password: string,
                                query: Outcome, create: AuthReply, profile: ProfileReplies)
      requires Valid()
      modifies this
      ensures Valid() && View() == Coordinator.RegisterIfNumberFree(old(View()), name, number, email, password, query, create, profile)
      ensures Announced()
    {
      requests := requests + [QueryUsers("number", number)];
      match query
      case Failure(e) =>
        HandleException(Some(e), "Failed to check number existence");
        inProcess := false;
      case Success =>
        if UsersWhere(backend, "number", number) != [] {
          HandleException(None, "Number already exists");
          inProcess := false;
        } else {
          CreateAccountAndProfile(name, number, email, password, create, profile);
        }
    }

    method CreateAccountAndProfile(name: string, number: string, email: string, password: string,
                                   create: AuthReply, profile: ProfileReplies)
      requires Valid()
      modifies this
      ensures Valid() && View() == Coordinator.CreateAccountAndProfile(old(View()), name, number, email, password, create, profile)
      ensures Announced()
    {
      requests := requests + [CreateAccount(email, password)];
      match create
      case AuthFailed(e) =>
        HandleException(Some(e), "Sign-up Failed");
        inProcess := false;
      case AuthOk(uid) =>
        backend := backend.(accounts := backend.accounts + {Account(email, password, uid)}, currentUid := Some(uid));
        signIn := true;
        CreateOrUpdateProfile(Some(name), Some(number), None, profile);
        inProcess := false;
    }

    method SignIn(email: string, password: string, reply: AuthReply, listen: ListenReplies)
      requires Valid()
      modifies this
      ensures Valid() && View() == Coordinator.SignIn(old(View()), email, password, reply, listen)
      ensures Announced()
      ensures Consistent(old(backend)) ==> Consistent(backend)
    {
      if email == "" || password == "" {
        HandleException(None, "Please fill in all fields");
        return;
      }
      inProcess := true;
      requests := requests + [SignInAccount(email, password)];
      match reply
      case AuthFailed(e) =>
        HandleException(Some(e), "Login Failed");
      case AuthOk(uid) =>
        backend := backend.(currentUid := Some(uid));
        signIn := true;
        inProcess := false;
        GetUserData(uid, listen);
    }

    method SignOut()
      requires Valid()
      modifies this
      ensures Valid() && View() == Coordinator.SignOut(old(View()))
      ensures Consistent(old(backend)) ==> Consistent(backend)
      ensures eventMutableState == old(eventMutableState)
    {
      requests := requests + [SignOutAccount];
      backend := backend.(currentUid := None);
      signIn := false;
    }

    method OnAddChat(number: string, replies: ChatReplies)
      requires Valid()
      modifies this
      ensures Valid() && View() == Coordinator.OnAddChat(old(View()), number, replies)
      ensures Announced()
      ensures Consistent(old(backend)) ==> Consistent(backend)
    {
      if IsBlank(number) || !IsDigitsOnly(number) {
        HandleException(None, "Invalid number. Please enter digits only.");
        return;
      }
      if userData.None? {
        HandleException(None, "User data is unavailable");
        return;
      }
      AddChatIfAbsent(number, userData.value, replies);
    }

    method AddChatIfAbsent(number: string, currentUser: UserData, replies: ChatReplies)
      requires Valid()
      modifies this
      ensures Valid() && View() == Coordinator.AddChatIfAbsent(old(View()), number, currentUser, replies)
      ensures Announced()
    {
      requests := requests + [QueryChats(number, currentUser.userNumber)];
      if replies.existing.Failure? {
        HandleException(Some(replies.existing.error), "Failed to check existing chats");
      } else if ChatExists(backend.chats, number, currentUser.userNumber) {
        HandleException(None, "Chat already exists");
      } else {
        AddChatWithPartner(number, currentUser, replies);
      }
    }

    method AddChatWithPartner(number: string, currentUser: UserData, replies: ChatReplies)
      requires Valid()
      modifies this
      ensures Valid() && View() == Coordinator.AddChatWithPartner(old(View()), number, currentUser, replies)
      ensures Announced()
    {
      requests := requests + [QueryUsers("userNumber", number)];
      if replies.partner.Failure? {
        HandleException(Some(replies.partner.error), "Failed to check user existence");
        return;
      }
      var userSnapshot := UsersWhere(backend, "userNumber", number);
      if userSnapshot == [] {
        HandleException(None, "User not found");
        return;
      }
      var chatPartner := DocUser(userSnapshot[0]);
      var chatData := NewChat(replies.freshId, currentUser, chatPartner);
      WriteChat(chatData, replies);
    }

    method WriteChat(chatData: ChatData, replies: ChatReplies)
      requires Valid()
      modifies this
      ensures Valid() && View() == Coordinator.WriteChat(old(View()), chatData, replies)
      ensures Announced()
    {
      requests := requests + [SetChatDoc(replies.freshId)];
      if replies.write.Failure? {
        HandleException(Some(replies.write.error), "Failed to create chat");
        return;
      }
      backend := backend.(chats := backend.chats + [ChatDoc(chatData)]);
      ChatSaved(replies.roster);
    }

    method ChatSaved(roster: Outcome)
      requires Valid()
      modifies this
      ensures Valid() && View() == Coordinator.ChatSaved(old(View()), roster)
      ensures Announced()
    {
      PublishEvent("Chat added successfully");
      PopulateChats(roster);
    }
  }
}
