/**
 * Consequences of the field names LCViewModel.kt writes and queries. Profiles
 * are stored with a "userNumber" field but sign-up checks a "number" field;
 * chat snapshots store the partner's number as "user1.number"/"user2.number"
 * but the existence check filters on "user1.userNumber"/"user2.userNumber".
 * The model keeps the names as the code has them; these lemmas state what
 * follows, together with the storage invariant every operation preserves.
 */
module FieldNames {
  import opened Wrappers
  import opened Records
  import opened Store
  import opened Validation
  import opened Coordinator
  import opened CoordinatorFacts

  // ---- the user collection ----------------------------------------------------

  /** The write of a profile save adds only fields named in a profile, never "number". */
  lemma SaveUserNoNumberField(b: Backend, uid: string, u: UserData)
    requires LacksUserField(b, "number")
    ensures LacksUserField(SaveUser(b, uid, u), "number")
  {
  }

  /** A profile save never introduces a "number" field. */
  lemma ProfileWritesNoNumberField(s: Session, name: Option<string>, number: Option<string>,
                                   image: Option<string>, replies: ProfileReplies)
    requires LacksUserField(s.backend, "number")
    ensures LacksUserField(CreateOrUpdateProfile(s, name, number, image, replies).backend, "number")
  {
    if s.backend.currentUid.Some? && !NullOrEmpty(name) && !NullOrEmpty(number) {
      var uid := s.backend.currentUid.value;
      if replies.read.Success? && replies.write.Success? {
        ProfileSaves(s, uid, name, number, image, replies.listen);
        SaveUserNoNumberField(s.backend, uid, ProfileFor(uid, name, number, image, s.userData));
      } else {
        ProfileSettles(s, uid, name, number, image, replies);
      }
    }
  }

  /** Sign-up's only user write is its profile save, so it keeps "number" absent too. */
  lemma SignUpWritesNoNumberField(s: Session, name: string, number: string, email: string, password: string,
                                  query: Outcome, create: AuthReply, profile: ProfileReplies)
    requires LacksUserField(s.backend, "number")
    ensures LacksUserField(SignUp(s, name, number, email, password, query, create, profile).backend, "number")
  {
    if !PasswordTooShort(password) && !AnyEmpty(name, number, email, password) && query.Success?
       && UsersWhere(s.backend, "number", number) == [] && create.AuthOk? {
      var s2 := Issue(Issue(s.(inProcess := true), QueryUsers("number", number)), CreateAccount(email, password));
      var signedUp := s.backend.(accounts := s.backend.accounts + {Account(email, password, create.uid)},
                                 currentUid := Some(create.uid));
      ProfileWritesNoNumberField(s2.(signIn := true, backend := signedUp), Some(name), Some(number), None, profile);
    }
  }

  /**
   * While no profile has a "number" field, the duplicate check of sign-up never
   * fires: a successful query always leads to account creation, whatever
   * userNumber the stored profiles have.
   */
  lemma NumberCheckNeverFires(s: Session, name: string, number: string, email: string, password: string,
                              create: AuthReply, profile: ProfileReplies)
    requires LacksUserField(s.backend, "number")
    requires !PasswordTooShort(password) && !AnyEmpty(name, number, email, password)
    ensures var r := SignUp(s, name, number, email, password, Success, create, profile);
      |r.requests| >= |s.requests| + 2 && r.requests[|s.requests| + 1] == CreateAccount(email, password)
  {
  }

  /** Two accounts end up with the same phone number: Bob signs up with Alice's number. */
  lemma DuplicateNumberAccepted()
    ensures var alice := UserData(Some("alice"), Some("Alice"), Some("5550001"), None);
      var b := Backend(map["alice" := UserDoc(alice)], ["alice"], [], {}, None);
      var ok := ProfileReplies(Success, Success, ListenReplies(Success, Success));
      var r := SignUp(Init(b, ok.listen), "Bob", "5550001", "bob@mail.com", "secret1", Success, AuthOk("bob"), ok);
      && "alice" in r.backend.users && "bob" in r.backend.users
      && DocUser(r.backend.users["alice"]).userNumber == Some("5550001")
      && DocUser(r.backend.users["bob"]).userNumber == Some("5550001")
  {
    var alice := UserData(Some("alice"), Some("Alice"), Some("5550001"), None);
    var b := Backend(map["alice" := UserDoc(alice)], ["alice"], [], {}, None);
    var ok := ProfileReplies(Success, Success, ListenReplies(Success, Success));
    var s := Init(b, ok.listen);
    assert s.backend == b;
    UserDocFields(alice);
    assert LacksUserField(b, "number");
    AbsentFieldMatchesNothing(b, "number", "5550001");
    SignUpRegisters(s, "Bob", "5550001", "bob@mail.com", "secret1", "bob", ok);
    SignUpCreatesProfile(s, "Bob", "5550001", "bob@mail.com", "secret1", "bob", ok.listen);
    var r := SignUp(s, "Bob", "5550001", "bob@mail.com", "secret1", Success, AuthOk("bob"), ok);
    var signedUp := b.(accounts := {Account("bob@mail.com", "secret1", "bob")}, currentUid := Some("bob"));
    var s3 := Issue(Issue(s.(inProcess := true), QueryUsers("number", "5550001")), CreateAccount("bob@mail.com", "secret1"))
               .(signIn := true, backend := signedUp);
    ProfileCreatesWhole(s3, "bob", Some("Bob"), Some("5550001"), None, ok.listen);
  }

  // ---- the chat collection ------------------------------------------------------

  /** A chat written by onAddChat never has the paths its own existence check filters on. */
  lemma AddChatWritesNoUserNumberPaths(s: Session, number: string, replies: ChatReplies)
    requires LacksUserNumberPaths(s.backend.chats)
    ensures LacksUserNumberPaths(OnAddChat(s, number, replies).backend.chats)
  {
    if !RejectsNumber(number) && s.userData.Some? {
      var me := s.userData.value;
      var s1 := Issue(s, QueryChats(number, me.userNumber));
      assert OnAddChat(s, number, replies) == AddChatIfAbsent(s, number, me, replies);
      if replies.existing.Success? && !ChatExists(s.backend.chats, number, me.userNumber) {
        assert AddChatIfAbsent(s, number, me, replies) == AddChatWithPartner(s1, number, me, replies);
        var found := UsersWhere(s.backend, "userNumber", number);
        if replies.partner.Success? && found != [] && replies.write.Success? {
          var chat := NewChat(replies.freshId, me, DocUser(found[0]));
          ChatDocFields(chat);
          var s3 := Issue(Issue(s1, QueryUsers("userNumber", number)), SetChatDoc(replies.freshId));
          assert AddChatWithPartner(s1, number, me, replies)
              == WriteChat(Issue(s1, QueryUsers("userNumber", number)), chat, replies);
          assert WriteChat(Issue(s1, QueryUsers("userNumber", number)), chat, replies)
              == ChatSaved(s3.(backend := s.backend.(chats := s.backend.chats + [ChatDoc(chat)])), replies.roster);
        }
      }
    }
  }

  /**
   * One successful add over chats without the queried paths: the chat is
   * appended, and the next add sees the same profile, the same partner query
   * and again no matching chat.
   */
  lemma AddChatRepeatable(s: Session, number: string, id: string, roster: Outcome)
    requires LacksUserNumberPaths(s.backend.chats)
    requires !RejectsNumber(number) && s.userData.Some?
    requires UsersWhere(s.backend, "userNumber", number) != []
    ensures var r := OnAddChat(s, number, ChatReplies(Success, Success, id, Success, roster));
      && r.backend.chats == s.backend.chats + [ChatDoc(NewChat(id, s.userData.value,
                                                               DocUser(UsersWhere(s.backend, "userNumber", number)[0])))]
      && LacksUserNumberPaths(r.backend.chats)
      && r.userData == s.userData
      && UsersWhere(r.backend, "userNumber", number) == UsersWhere(s.backend, "userNumber", number)
  {
    var replies := ChatReplies(Success, Success, id, Success, roster);
    AbsentPathsNoChat(s.backend.chats, number, s.userData.value.userNumber);
    AddChatAppends(s, number, id, roster);
    AddChatWritesNoUserNumberPaths(s, number, replies);
    var r := OnAddChat(s, number, replies);
    assert r.backend.users == s.backend.users && r.backend.order == s.backend.order;
  }

  /**
   * Adding the same contact twice stores two chats with the same two people:
   * the existence check cannot see the first one. The two generated ids are
   * distinct, as Firestore's generated ids are.
   */
  lemma RepeatedAddChatDuplicates(s: Session, number: string, first: string, second: string, roster: Outcome)
    requires first != second
    requires LacksUserNumberPaths(s.backend.chats)
    requires !RejectsNumber(number) && s.userData.Some?
    requires UsersWhere(s.backend, "userNumber", number) != []
    ensures var r1 := OnAddChat(s, number, ChatReplies(Success, Success, first, Success, roster));
      var r2 := OnAddChat(r1, number, ChatReplies(Success, Success, second, Success, roster));
      var partner := DocUser(UsersWhere(s.backend, "userNumber", number)[0]);
      && r2.backend.chats == s.backend.chats + [ChatDoc(NewChat(first, s.userData.value, partner)),
                                                ChatDoc(NewChat(second, s.userData.value, partner))]
  {
    var r1 := OnAddChat(s, number, ChatReplies(Success, Success, first, Success, roster));
    var a := ChatDoc(NewChat(first, s.userData.value, DocUser(UsersWhere(s.backend, "userNumber", number)[0])));
    AddChatRepeatable(s, number, first, roster);
    AddChatRepeatable(r1, number, second, roster);
    assert s.backend.chats + [a] + [ChatDoc(NewChat(second, s.userData.value, DocUser(UsersWhere(s.backend, "userNumber", number)[0])))]
        == s.backend.chats + [a, ChatDoc(NewChat(second, s.userData.value, DocUser(UsersWhere(s.backend, "userNumber", number)[0])))];
  }

  // ---- the storage invariant --------------------------------------------------

  /** Sign-up keeps the user collection's storage order consistent. */
  lemma SignUpKeepsConsistent(s: Session, name: string, number: string, email: string, password: string,
                              query: Outcome, create: AuthReply, profile: ProfileReplies)
    requires Consistent(s.backend)
    ensures Consistent(SignUp(s, name, number, email, password, query, create, profile).backend)
  {
    if !PasswordTooShort(password) && !AnyEmpty(name, number, email, password) && query.Success?
       && UsersWhere(s.backend, "number", number) == [] && create.AuthOk? {
      var s2 := Issue(Issue(s.(inProcess := true), QueryUsers("number", number)), CreateAccount(email, password));
      var signedUp := s.backend.(accounts := s.backend.accounts + {Account(email, password, create.uid)},
                                 currentUid := Some(create.uid));
      ProfileKeepsConsistent(s2.(signIn := true, backend := signedUp), Some(name), Some(number), None, profile);
    }
  }

  /** signIn, signOut and onAddChat leave the user collection alone. */
  lemma OthersKeepUsers(s: Session, email: string, password: string, reply: AuthReply, listen: ListenReplies,
                        number: string, replies: ChatReplies)
    ensures SignIn(s, email, password, reply, listen).backend.users == s.backend.users
    ensures SignIn(s, email, password, reply, listen).backend.order == s.backend.order
    ensures SignOut(s).backend.users == s.backend.users && SignOut(s).backend.order == s.backend.order
    ensures OnAddChat(s, number, replies).backend.users == s.backend.users
    ensures OnAddChat(s, number, replies).backend.order == s.backend.order
  {
  }
}
