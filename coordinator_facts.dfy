/** What the operations of LCViewModel.kt guarantee, proved about their Coordinator specifications. */
module CoordinatorFacts {
  import opened Wrappers
  import opened Records
  import opened Store
  import opened Validation
  import opened Coordinator

  // ---- signUp -------------------------------------------------------------

  /** A short password is reported before anything else; `inProcess` is left set. */
  lemma SignUpShortPassword(s: Session, name: string, number: string, email: string, password: string,
                            query: Outcome, create: AuthReply, profile: ProfileReplies)
    requires |password| < 6
    ensures SignUp(s, name, number, email, password, query, create, profile)
         == s.(inProcess := true, events := s.events + ["Password must be more than 6 characters"])
  {
  }

  /**
   * An empty name, number or email is reported without a backend request;
   * `inProcess` is left set. The `password.isEmpty()` test of LCViewModel.kt:86
   * can never fire: an empty password has already failed the length test of :82.
   */
  lemma SignUpEmptyField(s: Session, name: string, number: string, email: string, password: string,
                         query: Outcome, create: AuthReply, profile: ProfileReplies)
    requires |password| >= 6 && (name == "" || number == "" || email == "")
    ensures SignUp(s, name, number, email, password, query, create, profile)
         == s.(inProcess := true, events := s.events + ["Some fields are empty"])
  {
  }

  /** A match of the "number" query stops sign-up: no account, only the query was sent. */
  lemma SignUpNumberTaken(s: Session, name: string, number: string, email: string, password: string,
                          create: AuthReply, profile: ProfileReplies)
    requires !PasswordTooShort(password) && !AnyEmpty(name, number, email, password)
    requires UsersWhere(s.backend, "number", number) != []
    ensures SignUp(s, name, number, email, password, Success, create, profile)
         == s.(inProcess := false, events := s.events + ["Number already exists"],
               requests := s.requests + [QueryUsers("number", number)])
  {
  }

  /** A failed "number" query is reported; no account is created and `inProcess` is cleared. */
  lemma SignUpQueryFails(s: Session, name: string, number: string, email: string, password: string,
                         e: Exception, create: AuthReply, profile: ProfileReplies)
    requires !PasswordTooShort(password) && !AnyEmpty(name, number, email, password)
    ensures SignUp(s, name, number, email, password, Failure(e), create, profile)
         == s.(inProcess := false, events := s.events + ["Failed to check number existence"],
               requests := s.requests + [QueryUsers("number", number)])
  {
  }

  /** Once the inputs pass, the "number" query goes first and every outcome clears `inProcess`. */
  lemma SignUpSettles(s: Session, name: string, number: string, email: string, password: string,
                      query: Outcome, create: AuthReply, profile: ProfileReplies)
    requires !PasswordTooShort(password) && !AnyEmpty(name, number, email, password)
    ensures var r := SignUp(s, name, number, email, password, query, create, profile);
      && !r.inProcess
      && |r.requests| > |s.requests| && r.requests[|s.requests|] == QueryUsers("number", number)
  {
  }

  /** Account creation is attempted only after the query, and its success signs the user in. */
  lemma SignUpRegisters(s: Session, name: string, number: string, email: string, password: string,
                        uid: string, profile: ProfileReplies)
    requires !PasswordTooShort(password) && !AnyEmpty(name, number, email, password)
    requires UsersWhere(s.backend, "number", number) == []
    ensures var r := SignUp(s, name, number, email, password, Success, AuthOk(uid), profile);
      && r.signIn && !r.inProcess
      && r.backend.currentUid == Some(uid) && Account(email, password, uid) in r.backend.accounts
      && |r.requests| >= |s.requests| + 2
      && r.requests[|s.requests|] == QueryUsers("number", number)
      && r.requests[|s.requests| + 1] == CreateAccount(email, password)
  {
  }

  /** A failed account creation publishes the error, creates nothing and clears `inProcess`. */
  lemma SignUpAccountRefused(s: Session, name: string, number: string, email: string, password: string,
                             e: Exception, profile: ProfileReplies)
    requires !PasswordTooShort(password) && !AnyEmpty(name, number, email, password)
    requires UsersWhere(s.backend, "number", number) == []
    ensures SignUp(s, name, number, email, password, Success, AuthFailed(e), profile)
         == s.(inProcess := false, events := s.events + ["Sign-up Failed"],
               requests := s.requests + [QueryUsers("number", number), CreateAccount(email, password)])
  {
  }

  /** With every reply successful, sign-up stores the profile under the new uid with the given name and number. */
  lemma SignUpCreatesProfile(s: Session, name: string, number: string, email: string, password: string,
                             uid: string, listen: ListenReplies)
    requires !PasswordTooShort(password) && !AnyEmpty(name, number, email, password)
    requires UsersWhere(s.backend, "number", number) == []
    ensures var r := SignUp(s, name, number, email, password, Success, AuthOk(uid), ProfileReplies(Success, Success, listen));
      && uid in r.backend.users
      && DocUser(r.backend.users[uid]).name == Some(name)
      && DocUser(r.backend.users[uid]).userNumber == Some(number)
      && (uid !in s.backend.users ==>
            r.backend.users[uid] == UserDoc(ProfileFor(uid, Some(name), Some(number), None, s.userData)))
  {
    var signedUp := s.backend.(accounts := s.backend.accounts + {Account(email, password, uid)}, currentUid := Some(uid));
    var s3 := Issue(Issue(s.(inProcess := true), QueryUsers("number", number)), CreateAccount(email, password))
               .(signIn := true, backend := signedUp);
    ProfileSaves(s3, uid, Some(name), Some(number), None, listen);
  }

  // ---- createOrUpdateProfile ------------------------------------------------

  /** Without a signed-in user nothing is written and nothing is requested. */
  lemma ProfileNeedsUser(s: Session, name: Option<string>, number: Option<string>, image: Option<string>,
                         replies: ProfileReplies)
    requires s.backend.currentUid.None?
    ensures CreateOrUpdateProfile(s, name, number, image, replies)
         == s.(events := s.events + ["User not authenticated"])
  {
  }

  /** A null or empty name or number is rejected before any request; `inProcess` is untouched. */
  lemma ProfileNeedsFields(s: Session, name: Option<string>, number: Option<string>, image: Option<string>,
                           replies: ProfileReplies)
    requires s.backend.currentUid.Some?
    requires name.None? || name == Some("") || number.None? || number == Some("")
    ensures CreateOrUpdateProfile(s, name, number, image, replies)
         == s.(events := s.events + ["Name and Number cannot be empty"])
  {
  }

  /** A failed read of the profile document is reported; nothing is written and `inProcess` ends false. */
  lemma ProfileReadFails(s: Session, uid: string, name: Option<string>, number: Option<string>,
                         image: Option<string>, e: Exception, write: Outcome, listen: ListenReplies)
    requires s.backend.currentUid == Some(uid) && !NullOrEmpty(name) && !NullOrEmpty(number)
    ensures CreateOrUpdateProfile(s, name, number, image, ProfileReplies(Failure(e), write, listen))
         == s.(inProcess := false, events := s.events + ["Error checking profile existence"],
               requests := s.requests + [GetUserDoc(uid)])
  {
  }

  /** A failed update or set is reported; the store is unchanged and `inProcess` ends false. */
  lemma ProfileWriteFails(s: Session, uid: string, name: Option<string>, number: Option<string>,
                          image: Option<string>, e: Exception, listen: ListenReplies)
    requires s.backend.currentUid == Some(uid) && !NullOrEmpty(name) && !NullOrEmpty(number)
    ensures CreateOrUpdateProfile(s, name, number, image, ProfileReplies(Success, Failure(e), listen))
         == s.(inProcess := false, events := s.events + ["Failed to save profile"],
               requests := s.requests + [GetUserDoc(uid),
                                         if uid in s.backend.users then UpdateUserDoc(uid) else SetUserDoc(uid)])
  {
  }

  /** Once the checks pass, the document read goes first and every outcome ends with `inProcess` false. */
  lemma ProfileSettles(s: Session, uid: string, name: Option<string>, number: Option<string>,
                       image: Option<string>, replies: ProfileReplies)
    requires s.backend.currentUid == Some(uid) && !NullOrEmpty(name) && !NullOrEmpty(number)
    ensures var r := CreateOrUpdateProfile(s, name, number, image, replies);
      && !r.inProcess
      && |r.requests| > |s.requests| && r.requests[|s.requests|] == GetUserDoc(uid)
      && (replies.read.Failure? || replies.write.Failure? ==> r.backend == s.backend)
  {
  }

  /**
   * The outcome of a successful save: what it stored, and that the success
   * message is the first message published after the write. It is also the
   * last one when both listener emissions succeed.
   */
  lemma ProfileSaves(s: Session, uid: string, name: Option<string>, number: Option<string>,
                     image: Option<string>, listen: ListenReplies)
    requires s.backend.currentUid == Some(uid) && !NullOrEmpty(name) && !NullOrEmpty(number)
    ensures var r := CreateOrUpdateProfile(s, name, number, image, ProfileReplies(Success, Success, listen));
      var u := ProfileFor(uid, name, number, image, s.userData);
      var message := if uid in s.backend.users then "Profile updated successfully" else "Profile created successfully";
      && !r.inProcess
      && r.backend == SaveUser(s.backend, uid, u)
      && uid in r.backend.users
      && Field(r.backend.users[uid], "name") == name && Field(r.backend.users[uid], "userNumber") == number
      && Field(r.backend.users[uid], "imageUrl") == u.imageUrl
      && |r.events| > |s.events| && r.events[|s.events|] == message
      && (listen == ListenReplies(Success, Success) ==> r.events == s.events + [message])
  {
  }

  /**
   * The listener's emission comes after the success message: when it fails, its
   * error is published second and is what the event box holds.
   */
  lemma ProfileSavedThenListenerFails(s: Session, uid: string, existed: bool, e: Exception, chats: Outcome)
    ensures ProfileSaved(s, uid, existed, ListenReplies(Failure(e), chats)).events
         == s.events + [if existed then "Profile updated successfully" else "Profile created successfully",
                        "Cannot retrieve User"]
  {
  }

  /** Saving over an existing document changes only its name, userNumber and imageUrl. */
  lemma ProfileUpdatesInPlace(s: Session, uid: string, name: Option<string>, number: Option<string>,
                              image: Option<string>, listen: ListenReplies)
    requires s.backend.currentUid == Some(uid) && !NullOrEmpty(name) && !NullOrEmpty(number)
    requires uid in s.backend.users
    ensures var r := CreateOrUpdateProfile(s, name, number, image, ProfileReplies(Success, Success, listen));
      var before := s.backend.users[uid];
      var after := r.backend.users[uid];
      && r.backend.users.Keys == s.backend.users.Keys && r.backend.order == s.backend.order
      && (forall id :: id in s.backend.users && id != uid ==> r.backend.users[id] == s.backend.users[id])
      && after.Keys == before.Keys + {"name", "userNumber", "imageUrl"}
      && (forall f :: f in before && f !in {"name", "userNumber", "imageUrl"} ==> after[f] == before[f])
      && after["name"] == name && after["userNumber"] == number
      && after["imageUrl"] == (if image.Some? then image else if s.userData.Some? then s.userData.value.imageUrl else None)
  {
  }

  /** Saving without an existing document creates the whole profile, keyed and identified by the uid. */
  lemma ProfileCreatesWhole(s: Session, uid: string, name: Option<string>, number: Option<string>,
                            image: Option<string>, listen: ListenReplies)
    requires s.backend.currentUid == Some(uid) && !NullOrEmpty(name) && !NullOrEmpty(number)
    requires uid !in s.backend.users
    ensures var r := CreateOrUpdateProfile(s, name, number, image, ProfileReplies(Success, Success, listen));
      && r.backend.users == s.backend.users[uid := UserDoc(ProfileFor(uid, name, number, image, s.userData))]
      && r.backend.order == s.backend.order + [uid]
      && DocUser(r.backend.users[uid]) == ProfileFor(uid, name, number, image, s.userData)
      && DocUser(r.backend.users[uid]).userId == Some(uid)
  {
  }

  /** Profile saves keep the user collection's storage order consistent. */
  lemma ProfileKeepsConsistent(s: Session, name: Option<string>, number: Option<string>, image: Option<string>,
                               replies: ProfileReplies)
    requires Consistent(s.backend)
    ensures Consistent(CreateOrUpdateProfile(s, name, number, image, replies).backend)
  {
    var r := CreateOrUpdateProfile(s, name, number, image, replies);
    if s.backend.currentUid.Some? && !NullOrEmpty(name) && !NullOrEmpty(number)
       && replies.read.Success? && replies.write.Success? {
      var uid := s.backend.currentUid.value;
      ProfileSaves(s, uid, name, number, image, replies.listen);
      var u := ProfileFor(uid, name, number, image, s.userData);
      if uid in s.backend.users {
        UpdateUserEffect(s.backend, uid, u.name, u.userNumber, u.imageUrl);
      } else {
        SetUserEffect(s.backend, uid, UserDoc(u));
      }
    } else if s.backend.currentUid.Some? && !NullOrEmpty(name) && !NullOrEmpty(number) {
      ProfileSettles(s, s.backend.currentUid.value, name, number, image, replies);
    }
  }

  // ---- signIn, signOut, init -----------------------------------------------

  /** An empty email or password is reported; no auth call, `inProcess` untouched. */
  lemma SignInMissingField(s: Session, email: string, password: string, reply: AuthReply, listen: ListenReplies)
    requires email == "" || password == ""
    ensures SignIn(s, email, password, reply, listen) == s.(events := s.events + ["Please fill in all fields"])
  {
  }

  /** A successful sign-in sets `signIn`, clears `inProcess` and loads the signed-in user's profile. */
  lemma SignInAccepted(s: Session, email: string, password: string, uid: string, listen: ListenReplies)
    requires email != "" && password != ""
    ensures var r := SignIn(s, email, password, AuthOk(uid), listen);
      && r.signIn && !r.inProcess && r.backend.currentUid == Some(uid)
      && |r.requests| >= |s.requests| + 2
      && r.requests[|s.requests|] == SignInAccount(email, password)
      && r.requests[|s.requests| + 1] == ListenUserDoc(uid)
      && (listen.user.Success? ==> r.userData == LoadedUser(s.backend, uid))
  {
  }

  /** A refused sign-in publishes "Login Failed", keeps `signIn` and leaves `inProcess` set. */
  lemma SignInRejected(s: Session, email: string, password: string, e: Exception, listen: ListenReplies)
    requires email != "" && password != ""
    ensures SignIn(s, email, password, AuthFailed(e), listen)
         == s.(inProcess := true, events := s.events + ["Login Failed"],
               requests := s.requests + [SignInAccount(email, password)])
  {
  }

  /** Sign-out clears `signIn` and the auth session only; profile and roster stay as they were. */
  lemma SignOutKeepsState(s: Session)
    ensures SignOut(s) == s.(signIn := false, backend := s.backend.(currentUid := None),
                             requests := s.requests + [SignOutAccount])
    ensures SignOut(s).userData == s.userData && SignOut(s).chats == s.chats
  {
  }

  /**
   * getUserData: a failed emission only reports "Cannot retrieve User". A
   * successful one loads the profile (null when the document does not exist),
   * clears `inProcess` and, when a profile loaded, attaches and takes the roster.
   */
  lemma GetUserDataEmits(s: Session, uid: string, listen: ListenReplies)
    ensures listen.user.Failure? ==>
      GetUserData(s, uid, listen)
      == s.(events := s.events + ["Cannot retrieve User"], requests := s.requests + [ListenUserDoc(uid)])
    ensures listen.user.Success? && uid !in s.backend.users ==>
      GetUserData(s, uid, listen)
      == s.(userData := None, inProcess := false, requests := s.requests + [ListenUserDoc(uid)])
    ensures listen.user.Success? && uid in s.backend.users ==>
      var r := GetUserData(s, uid, listen);
      var me := DocUser(s.backend.users[uid]);
      && r.userData == Some(me) && !r.inProcess
      && r.requests == s.requests + [ListenUserDoc(uid), ListenChats(me.userId)]
      && (listen.chats.Success? ==> r.chats == Roster(s.backend.chats, me.userId) && r.events == s.events)
      && (listen.chats.Failure? ==> r.chats == s.chats && r.events == s.events + ["Failed to fetch chats"])
  {
  }

  /** Start-up signs in exactly when the backend has a current user, and then loads that user's profile. */
  lemma InitLoadsCurrentUser(b: Backend, listen: ListenReplies)
    ensures b.currentUid.None? ==> Init(b, listen) == Session(false, false, None, [], [], b, [])
    ensures b.currentUid.Some? ==>
      var r := Init(b, listen);
      && r.signIn && |r.requests| > 0 && r.requests[0] == ListenUserDoc(b.currentUid.value)
      && (listen.user.Success? ==> r.userData == LoadedUser(b, b.currentUid.value) && !r.inProcess)
  {
  }

  // ---- populateChats ----------------------------------------------------------

  /** The roster is the stored chats that involve the current user, read field for field; an error keeps it. */
  lemma PopulateChatsProjects(s: Session, reply: Outcome)
    ensures s.userData.None? ==> PopulateChats(s, reply) == s
    ensures s.userData.Some? && reply.Success? ==>
      var r := PopulateChats(s, reply);
      && r.chats == Roster(s.backend.chats, s.userData.value.userId)
      && (forall c :: c in r.chats <==> exists i :: 0 <= i < |s.backend.chats|
                                          && Involves(s.backend.chats[i], s.userData.value.userId)
                                          && c == DocChat(s.backend.chats[i]))
    ensures s.userData.Some? && reply.Failure? ==>
      var r := PopulateChats(s, reply);
      && r.chats == s.chats && r.events == s.events + ["Failed to fetch chats"]
  {
    if s.userData.Some? && reply.Success? {
      forall c ensures c in Roster(s.backend.chats, s.userData.value.userId) <==>
                       exists i :: 0 <= i < |s.backend.chats| && Involves(s.backend.chats[i], s.userData.value.userId)
                                   && c == DocChat(s.backend.chats[i]) {
        RosterMembers(s.backend.chats, s.userData.value.userId, c);
      }
    }
  }

  // ---- onAddChat ----------------------------------------------------------------

  /** A blank or non-digit number is rejected before any query. */
  lemma AddChatRejectsNumber(s: Session, number: string, replies: ChatReplies)
    requires |number| == 0 || exists i :: 0 <= i < |number| && !IsDigit(number[i])
    ensures OnAddChat(s, number, replies) == s.(events := s.events + ["Invalid number. Please enter digits only."])
  {
  }

  /** Without a loaded profile nothing is queried. */
  lemma AddChatNeedsProfile(s: Session, number: string, replies: ChatReplies)
    requires !RejectsNumber(number) && s.userData.None?
    ensures OnAddChat(s, number, replies) == s.(events := s.events + ["User data is unavailable"])
  {
  }

  /** A chat that the existence query finds, in either orientation, stops the operation. */
  lemma AddChatExisting(s: Session, number: string, replies: ChatReplies)
    requires !RejectsNumber(number) && s.userData.Some? && replies.existing.Success?
    requires ChatExists(s.backend.chats, number, s.userData.value.userNumber)
    ensures OnAddChat(s, number, replies)
         == s.(events := s.events + ["Chat already exists"],
               requests := s.requests + [QueryChats(number, s.userData.value.userNumber)])
  {
  }

  /** A failed existing-chat query is reported and nothing else is queried. */
  lemma AddChatExistingQueryFails(s: Session, number: string, e: Exception, replies: ChatReplies)
    requires !RejectsNumber(number) && s.userData.Some? && replies.existing == Failure(e)
    ensures OnAddChat(s, number, replies)
         == s.(events := s.events + ["Failed to check existing chats"],
               requests := s.requests + [QueryChats(number, s.userData.value.userNumber)])
  {
  }

  /** A failed partner query is reported and nothing is written. */
  lemma AddChatPartnerQueryFails(s: Session, number: string, e: Exception, replies: ChatReplies)
    requires !RejectsNumber(number) && s.userData.Some? && replies.existing.Success? && replies.partner == Failure(e)
    requires !ChatExists(s.backend.chats, number, s.userData.value.userNumber)
    ensures OnAddChat(s, number, replies)
         == s.(events := s.events + ["Failed to check user existence"],
               requests := s.requests + [QueryChats(number, s.userData.value.userNumber), QueryUsers("userNumber", number)])
  {
  }

  /** A failed chat write is reported; the chat collection and the roster are unchanged. */
  lemma AddChatWriteFails(s: Session, number: string, freshId: string, e: Exception, roster: Outcome)
    requires !RejectsNumber(number) && s.userData.Some?
    requires !ChatExists(s.backend.chats, number, s.userData.value.userNumber)
    requires UsersWhere(s.backend, "userNumber", number) != []
    ensures OnAddChat(s, number, ChatReplies(Success, Success, freshId, Failure(e), roster))
         == s.(events := s.events + ["Failed to create chat"],
               requests := s.requests + [QueryChats(number, s.userData.value.userNumber),
                                         QueryUsers("userNumber", number), SetChatDoc(freshId)])
  {
  }

  /** No profile with that userNumber: nothing is added. */
  lemma AddChatUnknownNumber(s: Session, number: string, replies: ChatReplies)
    requires Consistent(s.backend)
    requires !RejectsNumber(number) && s.userData.Some? && replies.existing.Success? && replies.partner.Success?
    requires !ChatExists(s.backend.chats, number, s.userData.value.userNumber)
    requires forall id :: id in s.backend.users ==> !FieldIs(s.backend.users[id], "userNumber", Some(number))
    ensures OnAddChat(s, number, replies)
         == s.(events := s.events + ["User not found"],
               requests := s.requests + [QueryChats(number, s.userData.value.userNumber), QueryUsers("userNumber", number)])
  {
  }

  /**
   * Otherwise exactly one chat is appended: user1 is a snapshot of the current
   * profile, user2 of the first profile with that userNumber; the refreshed
   * roster then contains it.
   */
  lemma AddChatAppends(s: Session, number: string, freshId: string, roster: Outcome)
    requires !RejectsNumber(number) && s.userData.Some?
    requires !ChatExists(s.backend.chats, number, s.userData.value.userNumber)
    requires UsersWhere(s.backend, "userNumber", number) != []
    ensures var r := OnAddChat(s, number, ChatReplies(Success, Success, freshId, Success, roster));
      var me := s.userData.value;
      var partner := DocUser(UsersWhere(s.backend, "userNumber", number)[0]);
      && partner.userNumber == Some(number)
      && r.backend == s.backend.(chats := s.backend.chats + [ChatDoc(NewChat(freshId, me, partner))])
      && r.requests[|s.requests|..|s.requests| + 3]
         == [QueryChats(number, me.userNumber), QueryUsers("userNumber", number), SetChatDoc(freshId)]
      && r.events[|s.events|] == "Chat added successfully"
      && (roster.Success? ==> NewChat(freshId, me, partner) in r.chats)
  {
    var me := s.userData.value;
    var found := UsersWhere(s.backend, "userNumber", number);
    var partner := DocUser(found[0]);
    var chat := NewChat(freshId, me, partner);
    var s3 := Issue(Issue(Issue(s, QueryChats(number, me.userNumber)), QueryUsers("userNumber", number)), SetChatDoc(freshId));
    var s4 := s3.(backend := s.backend.(chats := s.backend.chats + [ChatDoc(chat)]));
    var r := OnAddChat(s, number, ChatReplies(Success, Success, freshId, Success, roster));
    assert r == ChatSaved(s4, roster);
    assert FieldIs(found[0], "userNumber", Some(number));
    assert s3.requests <= r.requests;
    assert r.requests[|s.requests|..|s.requests| + 3] == s3.requests[|s.requests|..];
    if roster.Success? {
      var chats := s4.backend.chats;
      ChatDocFields(chat);
      assert chats[|chats| - 1] == ChatDoc(chat);
      RosterMembers(chats, me.userId, chat);
    }
  }

  /** The partner is the first profile in storage order whose userNumber is the number. */
  lemma AddChatPartnerIsFirst(b: Backend, number: string)
    requires UsersWhere(b, "userNumber", number) != []
    ensures exists i :: 0 <= i < |b.order| && b.order[i] in b.users
                        && b.users[b.order[i]] == UsersWhere(b, "userNumber", number)[0]
                        && (forall j :: 0 <= j < i && b.order[j] in b.users ==> !FieldIs(b.users[b.order[j]], "userNumber", Some(number)))
  {
    MatchingFirst(b.order, b.users, "userNumber", number);
  }

  /** onAddChat never touches the busy flag, the sign-in flag or the loaded profile. */
  lemma AddChatLeavesSession(s: Session, number: string, replies: ChatReplies)
    ensures var r := OnAddChat(s, number, replies);
      r.inProcess == s.inProcess && r.signIn == s.signIn && r.userData == s.userData
  {
  }
}
