/**
 * The remote side LCViewModel.kt talks to, as an in-memory value: the user
 * collection (USER_NODE), the chat collection (CHATS) and the authentication
 * service. Queries are the equality filters the view model issues.
 */
module Store {
  import opened Wrappers
  import opened Records

  datatype Account = Account(email: string, password: string, uid: string)

  /**
   * `users` maps a document id to its document and `order` lists those ids in
   * storage order, the order queries return them in; `chats` are the chat
   * documents in storage order; `currentUid` is `auth.currentUser?.uid`.
   */
  datatype Backend = Backend(users: map<string, Doc>, order: seq<string>, chats: seq<Doc>,
                             accounts: set<Account>, currentUid: Option<string>)

  /** `order` lists every user document exactly once. */
  ghost predicate Consistent(b: Backend) {
    && (forall i :: 0 <= i < |b.order| ==> b.order[i] in b.users)
    && (forall id :: id in b.users ==> id in b.order)
    && (forall i, j :: 0 <= i < j < |b.order| ==> b.order[i] != b.order[j])
  }

  /** The documents among `ids` that satisfy `whereEqualTo(f, v)`, in the order of `ids`. */
  function Matching(ids: seq<string>, users: map<string, Doc>, f: string, v: string): (r: seq<Doc>)
    ensures |r| <= |ids|
    ensures forall k :: 0 <= k < |r| ==> FieldIs(r[k], f, Some(v))
    ensures |r| == 0 <==> forall i :: 0 <= i < |ids| && ids[i] in users ==> !FieldIs(users[ids[i]], f, Some(v))
  {
    if ids == [] then []
    else
      var rest := Matching(ids[1..], users, f, v);
      assert forall i :: 1 <= i < |ids| ==> ids[i] == ids[1..][i - 1];
      if ids[0] in users && FieldIs(users[ids[0]], f, Some(v)) then [users[ids[0]]] + rest else rest
  }

  /** `db.collection(USER_NODE).whereEqualTo(f, v).get()` */
  function UsersWhere(b: Backend, f: string, v: string): (r: seq<Doc>)
    ensures |r| <= |b.order|
  {
    Matching(b.order, b.users, f, v)
  }

  /** A query finds nothing exactly when no stored user document has `f == v`. */
  lemma UsersWhereEmptyIff(b: Backend, f: string, v: string)
    requires Consistent(b)
    ensures UsersWhere(b, f, v) == [] <==> forall id :: id in b.users ==> !FieldIs(b.users[id], f, Some(v))
  {
  }

  /** The first result of a query is the first matching document in storage order. */
  lemma {:induction false} MatchingFirst(ids: seq<string>, users: map<string, Doc>, f: string, v: string)
    requires Matching(ids, users, f, v) != []
    ensures exists i :: 0 <= i < |ids| && ids[i] in users && users[ids[i]] == Matching(ids, users, f, v)[0]
                        && FieldIs(users[ids[i]], f, Some(v))
                        && forall j :: 0 <= j < i && ids[j] in users ==> !FieldIs(users[ids[j]], f, Some(v))
  {
    if ids[0] in users && FieldIs(users[ids[0]], f, Some(v)) {
      assert users[ids[0]] == Matching(ids, users, f, v)[0];
    } else {
      MatchingFirst(ids[1..], users, f, v);
      var i :| 0 <= i < |ids[1..]| && ids[1..][i] in users && users[ids[1..][i]] == Matching(ids[1..], users, f, v)[0]
               && FieldIs(users[ids[1..][i]], f, Some(v))
               && forall j :: 0 <= j < i && ids[1..][j] in users ==> !FieldIs(users[ids[1..][j]], f, Some(v));
      assert ids[i + 1] == ids[1..][i];
      forall j | 0 <= j < i + 1 && ids[j] in users ensures !FieldIs(users[ids[j]], f, Some(v)) {
        if j > 0 { assert ids[j] == ids[1..][j - 1]; }
      }
    }
  }

  /** A query returns exactly the stored documents among `ids` whose field `f` is `v`. */
  lemma {:induction false} MatchingExact(ids: seq<string>, users: map<string, Doc>, f: string, v: string)
    ensures forall d :: d in Matching(ids, users, f, v) <==>
      exists i :: 0 <= i < |ids| && ids[i] in users && users[ids[i]] == d && FieldIs(d, f, Some(v))
  {
    if ids != [] {
      MatchingExact(ids[1..], users, f, v);
      forall d ensures d in Matching(ids, users, f, v) <==>
        exists i :: 0 <= i < |ids| && ids[i] in users && users[ids[i]] == d && FieldIs(d, f, Some(v)) {
        if d in Matching(ids[1..], users, f, v) {
          var i :| 0 <= i < |ids[1..]| && ids[1..][i] in users && users[ids[1..][i]] == d && FieldIs(d, f, Some(v));
          assert ids[i + 1] == ids[1..][i];
        }
        if exists i :: 0 <= i < |ids| && ids[i] in users && users[ids[i]] == d && FieldIs(d, f, Some(v)) {
          var i :| 0 <= i < |ids| && ids[i] in users && users[ids[i]] == d && FieldIs(d, f, Some(v));
          if i > 0 { assert ids[1..][i - 1] == ids[i]; }
        }
      }
    }
  }

  /** Over a consistent store, a query returns exactly the user documents whose field `f` is `v`. */
  lemma UsersWhereExact(b: Backend, f: string, v: string)
    requires Consistent(b)
    ensures forall d :: d in UsersWhere(b, f, v) <==> exists id :: id in b.users && b.users[id] == d && FieldIs(d, f, Some(v))
  {
    MatchingExact(b.order, b.users, f, v);
    forall d | exists id :: id in b.users && b.users[id] == d && FieldIs(d, f, Some(v))
      ensures d in UsersWhere(b, f, v) {
      var id :| id in b.users && b.users[id] == d && FieldIs(d, f, Some(v));
      var i :| 0 <= i < |b.order| && b.order[i] == id;
    }
  }

  /** `document(uid).set(d)`: replaces the document, or creates it at the end of storage order. */
  function SetUser(b: Backend, uid: string, d: Doc): Backend {
    b.(users := b.users[uid := d], order := if uid in b.users then b.order else b.order + [uid])
  }

  /** `document(uid).update(mapOf("name" to .., "userNumber" to .., "imageUrl" to ..))` on an existing document. */
  function UpdateUser(b: Backend, uid: string, name: Option<string>, number: Option<string>,
                      image: Option<string>): Backend
    requires uid in b.users
  {
    b.(users := b.users[uid := b.users[uid]["name" := name]["userNumber" := number]["imageUrl" := image]])
  }

  /** `set` stores exactly the given document and touches no other one. */
  lemma SetUserEffect(b: Backend, uid: string, d: Doc)
    ensures SetUser(b, uid, d).users == b.users[uid := d]
    ensures SetUser(b, uid, d).chats == b.chats && SetUser(b, uid, d).accounts == b.accounts
    ensures SetUser(b, uid, d).currentUid == b.currentUid
    ensures Consistent(b) ==> Consistent(SetUser(b, uid, d))
  {
  }

  /** `update` changes name, userNumber and imageUrl of one document and nothing else. */
  lemma UpdateUserEffect(b: Backend, uid: string, name: Option<string>, number: Option<string>, image: Option<string>)
    requires uid in b.users
    ensures var r := UpdateUser(b, uid, name, number, image);
      && r.users.Keys == b.users.Keys && r.order == b.order
      && (forall id :: id in b.users && id != uid ==> r.users[id] == b.users[id])
      && r.users[uid].Keys == b.users[uid].Keys + {"name", "userNumber", "imageUrl"}
      && (forall f :: f in b.users[uid] && f !in {"name", "userNumber", "imageUrl"} ==> r.users[uid][f] == b.users[uid][f])
      && r.users[uid]["name"] == name && r.users[uid]["userNumber"] == number && r.users[uid]["imageUrl"] == image
      && r.chats == b.chats && r.accounts == b.accounts && r.currentUid == b.currentUid
      && (Consistent(b) ==> Consistent(r))
  {
  }

  /**
   * The write of a profile save: `update` of name, userNumber and imageUrl when
   * the document exists, otherwise `set` of the whole profile.
   */
  function SaveUser(b: Backend, uid: string, u: UserData): (r: Backend)
    ensures uid in r.users
    ensures FieldIs(r.users[uid], "name", u.name) && FieldIs(r.users[uid], "userNumber", u.userNumber)
    ensures FieldIs(r.users[uid], "imageUrl", u.imageUrl)
    ensures uid !in b.users ==> FieldIs(r.users[uid], "userId", u.userId)
    ensures r.chats == b.chats && r.accounts == b.accounts && r.currentUid == b.currentUid
  {
    if uid in b.users then UpdateUser(b, uid, u.name, u.userNumber, u.imageUrl) else SetUser(b, uid, UserDoc(u))
  }

  /** One chat document matches the existence filter of LCViewModel.kt:297-308. */
  predicate PairMatches(d: Doc, number: string, mine: Option<string>) {
    || (FieldIs(d, "user1.userNumber", Some(number)) && FieldIs(d, "user2.userNumber", mine))
    || (FieldIs(d, "user2.userNumber", Some(number)) && FieldIs(d, "user1.userNumber", mine))
  }

  /** The existence query returns a non-empty snapshot. */
  predicate ChatExists(chats: seq<Doc>, number: string, mine: Option<string>) {
    exists i :: 0 <= i < |chats| && PairMatches(chats[i], number, mine)
  }

  /** The existence check does not depend on which side started the chat. */
  lemma ChatExistsSymmetric(chats: seq<Doc>, a: string, b: string)
    ensures ChatExists(chats, a, Some(b)) <==> ChatExists(chats, b, Some(a))
  {
  }

  /** The chat documents the roster listener of LCViewModel.kt:369-375 receives. */
  predicate Involves(d: Doc, userId: Option<string>) {
    FieldIs(d, "user1.userId", userId) || FieldIs(d, "user2.userId", userId)
  }

  /** `toObjects<ChatData>()` of the chats that involve `userId`, each mapped to itself, in storage order. */
  function Roster(chats: seq<Doc>, userId: Option<string>): (r: seq<ChatData>)
    ensures |r| <= |chats|
    ensures forall k :: 0 <= k < |r| ==> r[k].user1.userId == userId || r[k].user2.userId == userId
  {
    if chats == [] then []
    else
      var rest := Roster(chats[1..], userId);
      if Involves(chats[0], userId) then [DocChat(chats[0])] + rest else rest
  }

  /** A roster entry is exactly the typed reading of a stored chat that involves the user. */
  lemma {:induction false} RosterMembers(chats: seq<Doc>, userId: Option<string>, c: ChatData)
    ensures c in Roster(chats, userId) <==>
            exists i :: 0 <= i < |chats| && Involves(chats[i], userId) && c == DocChat(chats[i])
  {
    if chats != [] {
      RosterMembers(chats[1..], userId, c);
      if exists i :: 0 <= i < |chats| && Involves(chats[i], userId) && c == DocChat(chats[i]) {
        var i :| 0 <= i < |chats| && Involves(chats[i], userId) && c == DocChat(chats[i]);
        if i > 0 { assert chats[i] == chats[1..][i - 1]; }
      }
      if c in Roster(chats[1..], userId) {
        var i :| 0 <= i < |chats[1..]| && Involves(chats[1..][i], userId) && c == DocChat(chats[1..][i]);
        assert chats[1..][i] == chats[i + 1];
      }
    }
  }

  /** The documents `set(chatData)` writes for a list of chats. */
  function ChatDocs(cs: seq<ChatData>): (ds: seq<Doc>)
    ensures |ds| == |cs|
  {
    if cs == [] then [] else [ChatDoc(cs[0])] + ChatDocs(cs[1..])
  }

  /** The chats of `cs` that have `userId` as one of their participants, in order. */
  function ChatsOf(cs: seq<ChatData>, userId: Option<string>): seq<ChatData> {
    if cs == [] then []
    else (if cs[0].user1.userId == userId || cs[0].user2.userId == userId then [cs[0]] else []) + ChatsOf(cs[1..], userId)
  }

  /** Over chats this code wrote, the roster is a plain filter of the chats, fields unchanged. */
  lemma {:induction false} RosterIsFilter(cs: seq<ChatData>, userId: Option<string>)
    ensures Roster(ChatDocs(cs), userId) == ChatsOf(cs, userId)
  {
    if cs != [] {
      RosterIsFilter(cs[1..], userId);
      assert ChatDocs(cs)[1..] == ChatDocs(cs[1..]);
    }
  }

  /** No user document has field `f`. */
  ghost predicate LacksUserField(b: Backend, f: string) {
    forall id :: id in b.users ==> f !in b.users[id]
  }

  /** A query on a field no document has finds nothing. */
  lemma AbsentFieldMatchesNothing(b: Backend, f: string, v: string)
    requires LacksUserField(b, f)
    ensures UsersWhere(b, f, v) == []
  {
  }

  /** No chat document has the paths the existence query filters on. */
  ghost predicate LacksUserNumberPaths(chats: seq<Doc>) {
    forall i :: 0 <= i < |chats| ==> "user1.userNumber" !in chats[i] && "user2.userNumber" !in chats[i]
  }

  lemma AbsentPathsNoChat(chats: seq<Doc>, number: string, mine: Option<string>)
    requires LacksUserNumberPaths(chats)
    ensures !ChatExists(chats, number, mine)
  {
  }
}
