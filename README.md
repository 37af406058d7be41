# Chat-Application: the view model and its event box, in Dafny

This project models the core of an Android chat client. That core is:

- `LCViewModel`, the view model behind every screen. It does sign-up, sign-in, profile save, sign-out, profile loading, error reporting, adding a chat and loading the chat roster.
- `Event`, the one-shot box the view model publishes its messages through.

The model runs against an in-memory backend (`Store.Backend`) with four parts:

- **User collection.** A map from uid to document, plus the order the documents were first stored in. Queries return matches in that order.
- **Chat collection.** A sequence of documents in write order.
- **Accounts.** The set of email/password/uid accounts that sign-up creates. It records sign-ups only: sign-in never consults it, because the identity service's answer (`AuthReply`) is a parameter, and `Coordinator.SignIn` accepts whatever account that answer names.
- **Current uid.** The identity service's signed-in user, if any.

A document is a map from field path to `Option<string>` (`None` is a stored null). A chat's nested participants therefore appear under paths such as `"user1.userId"`. Keeping documents as field maps keeps the field names the code writes separate from the ones it queries. The lemmas in `FieldNames` depend on that.

## Structure

- `Events` (`event.dfy`) models `Event<T>` as a class: a `const content` and a mutable `hasBeenHandled`. `ConsumeContent` is proved against `Step`. `ExactlyOnce` and `HandledStaysEmpty` prove what any sequence of consumes returns.
- `Records` (`records.dfy`) holds `UserData`, `ChatUser` and `ChatData`, and their documents. `UserDoc`/`DocUser` and `ChatDoc`/`DocChat` stand for Firestore's object mapper, and each writer's contract is the round trip through its reader.
- `Store` (`store.dfy`) holds the backend and the queries the view model issues:
  - `UsersWhere`: equality on one user field.
  - `ChatExists`: the either-orientation pair filter of `onAddChat`.
  - `Roster`: the either-participant filter of `populateChats`.
  - `SetUser` / `UpdateUser`: the two profile writes.
- `Validation` (`validation.dfy`) holds the input checks: `isBlank`, `isDigitsOnly`, `isNullOrEmpty`, and the password length check.
- `Coordinator` (`coordinator.dfy`) has one pure function per view-model operation over a `Session`. A `Session` holds the view model's observable fields, the backend, the log of published messages and the log of backend requests. Every callback chain of the source is one function per callback.
- `ViewModel` (`view_model.dfy`) is the class `LCViewModel`:
  - Its fields are the source's state fields. `eventMutableState` is a real `Events.Event<string>` reference.
  - There are two ghost logs.
  - Each method changes the fields step by step and ensures that `View()` is the `Coordinator` function that specifies it, applied to `old(View())`. That function has the method's name, with two exceptions: `PublishEvent` is specified by `Coordinator.Publish`, and the constructor by `Coordinator.Init`.
  - Every method except `SignOut` also ensures `Announced()`: a call that published a message leaves a new, unhandled event box; one that published nothing leaves the old box. `SignOut` never publishes and ensures that the box is the old one. The constructor ensures neither.
- `CoordinatorFacts` (`coordinator_facts.dfy`) and `FieldNames` (`field_names.dfy`) prove what each operation guarantees, as lemmas about the `Coordinator` functions. Through each method's postcondition they hold for the class too.

Asynchrony is made synchronous. Each Firebase call becomes one step whose outcome is a parameter: `Outcome`, `AuthReply`, `ListenReplies`, `ProfileReplies` or `ChatReplies`. A callback runs after the block that registered it has finished. Almost every registering call is the last statement of its block, so the model runs the callback right after the call. There are two exceptions:

- The success callback of the profile write calls `getUserData` (LCViewModel.kt:189) before it publishes its message. The model attaches the listener, publishes, and only then delivers the listener's one emission (`DeliverUser`).
- `signUp` resets `inProcess` (LCViewModel.kt:108) after it calls `createOrUpdateProfile`. This one is listed under "## Left out".

The id Firestore generates for a new chat document is a parameter (`ChatReplies.freshId`).

### Where the code is followed over its documentation

- **Duplicate phone numbers are not caught.**
  - Intended: sign-up refuses a phone number that is already registered.
  - What the code does: `signUp` queries the user collection on the field `"number"`. Profiles are written by `createOrUpdateProfile` with the field `"userNumber"`, and no write ever creates `"number"`.
  - Consequence: in the model the check finds nothing in documents this code wrote. `FieldNames.NumberCheckNeverFires` states this. `FieldNames.DuplicateNumberAccepted` gives a concrete case: a second account is created with a number that is already stored.
- **Duplicate chats are not caught.**
  - Intended: a chat between the same two people is added only once.
  - What the code does: `onAddChat` checks for an existing chat on `"user1.userNumber"`/`"user2.userNumber"`. The chat it writes stores the participants' numbers as `"user1.number"`/`"user2.number"`, because the `ChatUser` property is `number`.
  - Consequence: the check never sees a chat this code wrote. `FieldNames.RepeatedAddChatDuplicates` shows that adding the same contact twice stores two chats.
- **`inProcess` is not always cleared.**
  - Intended: the busy flag is cleared on every exit of an operation that sets it.
  - What the code does: `signUp` sets it before its input checks, and the two early returns leave it set. A failed `signIn` leaves it set as well.
  - The model keeps this, in `SignUpShortPassword`, `SignUpEmptyField` and `SignInRejected`.

## Model

| member | source | states |
|---|---|---|
| Events.Event.constructor | app/src/main/java/com/example/chattingapp/data/Event.kt:6-7 | a new box holds its payload, is not handled and has delivered nothing |
| Events.Event.ConsumeContent | app/src/main/java/com/example/chattingapp/data/Event.kt:9-16 | returns the payload exactly when the box was not yet handled, null otherwise; afterwards the box is handled and has delivered at most once |
| Events.Step | app/src/main/java/com/example/chattingapp/data/Event.kt:9-16 | one consume yields a value iff the flag was clear, and that value is the payload |
| Events.ExactlyOnce | app/src/main/java/com/example/chattingapp/data/Event.kt:9-16 | of n >= 1 consumes of a fresh box the first returns the payload, all others return null, and exactly one delivers |
| Events.HandledStaysEmpty | app/src/main/java/com/example/chattingapp/data/Event.kt:10-11 | every consume of a handled box returns null and none delivers |
| Events.ConsumeTwice | app/src/main/java/com/example/chattingapp/data/Event.kt:9-16 | consuming a new box twice gives the payload, then null |
| Records.UserDoc | app/src/main/java/com/example/chattingapp/LCViewModel.kt:185 | reading back the document `set(userData)` stores gives the profile |
| Records.DocUser | app/src/main/java/com/example/chattingapp/LCViewModel.kt:223 | each profile property is read from the field of the same name |
| Records.UserDocFields | app/src/main/java/com/example/chattingapp/LCViewModel.kt:185 | a profile is stored with exactly userId, name, userNumber and imageUrl, and no "number" field |
| Records.ChatDoc | app/src/main/java/com/example/chattingapp/LCViewModel.kt:345 | reading back the document `set(chatData)` stores gives the chat |
| Records.DocChat | app/src/main/java/com/example/chattingapp/LCViewModel.kt:382 | the chat id and both participant ids are read from their paths |
| Records.ChatDocFields | app/src/main/java/com/example/chattingapp/LCViewModel.kt:328-345 | a stored chat has exactly the nine property paths; participant numbers are under "userN.number", and "userN.userNumber" is absent |
| Records.Snapshot | app/src/main/java/com/example/chattingapp/LCViewModel.kt:330-341 | a chat participant copies id, name, image and number from the profile |
| Store.Matching | app/src/main/java/com/example/chattingapp/LCViewModel.kt:317-319 | the result is no longer than the ids scanned, every result has the field equal to the value, and it is empty iff no scanned document matches |
| Store.UsersWhere | app/src/main/java/com/example/chattingapp/LCViewModel.kt:92 | the result is no longer than the storage order. Store.Matching states that every result matches. Store.MatchingExact and Store.UsersWhereExact state that it holds exactly the stored documents that match. Store.UsersWhereEmptyIff states when it is empty, and Store.MatchingFirst what its first element is |
| Store.MatchingExact | app/src/main/java/com/example/chattingapp/LCViewModel.kt:317-319 | a document is in the result iff it is the stored document of one of the scanned ids and its field has the queried value |
| Store.UsersWhereExact | app/src/main/java/com/example/chattingapp/LCViewModel.kt:92 | over a consistent store, a document is in the query result iff some user document is that document and has the queried field value |
| Store.UsersWhereEmptyIff | app/src/main/java/com/example/chattingapp/LCViewModel.kt:92-94 | over a consistent store a field query is empty iff no user document has that field value |
| Store.MatchingFirst | app/src/main/java/com/example/chattingapp/LCViewModel.kt:326 | the first result is the document of the first id in storage order that matches |
| Store.SetUserEffect | app/src/main/java/com/example/chattingapp/LCViewModel.kt:185 | set stores exactly the given document under the uid, touches no other document, chat or account, and keeps the store consistent |
| Store.UpdateUserEffect | app/src/main/java/com/example/chattingapp/LCViewModel.kt:177-183 | update changes name, userNumber and imageUrl of one document, keeps every other field and document, and keeps the store consistent |
| Store.SaveUser | app/src/main/java/com/example/chattingapp/LCViewModel.kt:176-186 | the uid's document then has the profile's name, userNumber and imageUrl, and its userId when it was created; chats, accounts and current user are kept |
| Store.ChatExistsSymmetric | app/src/main/java/com/example/chattingapp/LCViewModel.kt:297-308 | the chat existence filter matches a pair in either orientation |
| Store.Roster | app/src/main/java/com/example/chattingapp/LCViewModel.kt:366-399 | the roster is no longer than the chat collection and each entry has the user as one of its participants |
| Store.RosterMembers | app/src/main/java/com/example/chattingapp/LCViewModel.kt:369-398 | a chat is in the roster iff it is read from a stored chat whose user1 or user2 id is the user |
| Store.RosterIsFilter | app/src/main/java/com/example/chattingapp/LCViewModel.kt:382-398 | over chats stored by this code the roster is the user's chats in storage order, unchanged |
| Store.AbsentFieldMatchesNothing | app/src/main/java/com/example/chattingapp/LCViewModel.kt:92 | a query on a field no user document has returns nothing |
| Store.AbsentPathsNoChat | app/src/main/java/com/example/chattingapp/LCViewModel.kt:297-311 | the existence filter matches nothing when no chat has the userNumber paths |
| Validation.RejectsNumberIff | app/src/main/java/com/example/chattingapp/LCViewModel.kt:285 | a number is accepted iff it is non-empty and all ASCII digits |
| Coordinator.ErrorMessage | app/src/main/java/com/example/chattingapp/LCViewModel.kt:273-274 | the custom message when non-empty, else the exception's localized message, else the empty string |
| Coordinator.HandleException | app/src/main/java/com/example/chattingapp/LCViewModel.kt:270-277 | the new state is the old one with exactly one more message, the error message; nothing else changes |
| Coordinator.PopulateChats | app/src/main/java/com/example/chattingapp/LCViewModel.kt:366-400 | changes only the roster and the two logs |
| Coordinator.GetUserData | app/src/main/java/com/example/chattingapp/LCViewModel.kt:220-232 | keeps the backend and the sign-in flag; the message and request logs only grow |
| Coordinator.DeliverUser | app/src/main/java/com/example/chattingapp/LCViewModel.kt:221-231 | the profile listener's emission keeps the backend and the sign-in flag; the logs only grow |
| Coordinator.LoadedUser | app/src/main/java/com/example/chattingapp/LCViewModel.kt:223 | null exactly when the uid has no document; otherwise each property is read from its field |
| Coordinator.Init | app/src/main/java/com/example/chattingapp/LCViewModel.kt:63-69 | signed in iff the backend has a current user; the backend is untouched |
| Coordinator.ProfileFor | app/src/main/java/com/example/chattingapp/LCViewModel.kt:165-170 | the profile carries the uid, name and number, and the image, or else the loaded profile's image, or else null |
| Coordinator.ProfileSaved | app/src/main/java/com/example/chattingapp/LCViewModel.kt:188-193 | attaches the profile listener first and clears inProcess; the next message is updated or created, according to the earlier existence read; the backend is kept |
| Coordinator.CreateOrUpdateProfile | app/src/main/java/com/example/chattingapp/LCViewModel.kt:146-203 | keeps signIn, the accounts, the current user and the chats; the logs only grow |
| Coordinator.SaveProfile | app/src/main/java/com/example/chattingapp/LCViewModel.kt:172-202 | keeps signIn, the accounts, the current user and the chats; the logs only grow |
| Coordinator.WriteProfile | app/src/main/java/com/example/chattingapp/LCViewModel.kt:176-197 | keeps signIn, the accounts, the current user and the chats; the logs only grow |
| Coordinator.SignUp | app/src/main/java/com/example/chattingapp/LCViewModel.kt:78-114 | keeps the chat collection; the logs only grow |
| Coordinator.RegisterIfNumberFree | app/src/main/java/com/example/chattingapp/LCViewModel.kt:92-113 | every outcome ends with inProcess false and keeps the chat collection |
| Coordinator.CreateAccountAndProfile | app/src/main/java/com/example/chattingapp/LCViewModel.kt:101-109 | every outcome ends with inProcess false and keeps the chat collection |
| Coordinator.SignIn | app/src/main/java/com/example/chattingapp/LCViewModel.kt:121-138 | keeps the user and chat collections, the storage order and the accounts |
| Coordinator.SignOut | app/src/main/java/com/example/chattingapp/LCViewModel.kt:208-211 | clears signIn and the current user; keeps the profile, roster, inProcess and messages |
| Coordinator.NewChat | app/src/main/java/com/example/chattingapp/LCViewModel.kt:327-342 | the chat has the generated id, the current profile as user1 and the partner as user2 |
| Coordinator.OnAddChat | app/src/main/java/com/example/chattingapp/LCViewModel.kt:284-361 | never touches inProcess, signIn or the loaded profile, and changes no part of the backend but the chat collection |
| Coordinator.AddChatIfAbsent | app/src/main/java/com/example/chattingapp/LCViewModel.kt:296-360 | keeps inProcess, signIn and the profile, and changes only the chat collection of the backend |
| Coordinator.AddChatWithPartner | app/src/main/java/com/example/chattingapp/LCViewModel.kt:317-356 | keeps inProcess, signIn and the profile, and changes only the chat collection of the backend |
| Coordinator.WriteChat | app/src/main/java/com/example/chattingapp/LCViewModel.kt:345-352 | writing the new chat keeps inProcess, signIn and the profile, and changes only the chat collection of the backend; a failed write leaves the backend unchanged and publishes exactly "Failed to create chat" |
| Coordinator.ChatSaved | app/src/main/java/com/example/chattingapp/LCViewModel.kt:346-349 | publishes "Chat added successfully" first and changes only roster and logs |
| CoordinatorFacts.SignUpShortPassword | app/src/main/java/com/example/chattingapp/LCViewModel.kt:79-85 | a password under 6 characters publishes its message with no request, leaving inProcess set |
| CoordinatorFacts.SignUpEmptyField | app/src/main/java/com/example/chattingapp/LCViewModel.kt:86-89 | an empty name, number or email publishes "Some fields are empty" with no request, leaving inProcess set |
| CoordinatorFacts.SignUpQueryFails | app/src/main/java/com/example/chattingapp/LCViewModel.kt:110-113 | a failed "number" query publishes "Failed to check number existence", clears inProcess and sends nothing after the query: no account, no profile |
| CoordinatorFacts.SignUpNumberTaken | app/src/main/java/com/example/chattingapp/LCViewModel.kt:92-98 | a match of the number query publishes "Number already exists", clears inProcess, and sends nothing after the query: no account, no profile |
| CoordinatorFacts.SignUpSettles | app/src/main/java/com/example/chattingapp/LCViewModel.kt:92-113 | once the inputs pass, the number query is the first request and every outcome ends with inProcess false |
| CoordinatorFacts.SignUpRegisters | app/src/main/java/com/example/chattingapp/LCViewModel.kt:101-108 | account creation follows the query; on success the account exists, it is the current user, signIn is set and inProcess is cleared |
| CoordinatorFacts.SignUpAccountRefused | app/src/main/java/com/example/chattingapp/LCViewModel.kt:105-108 | a refused account creation publishes "Sign-up Failed", changes no data and clears inProcess |
| CoordinatorFacts.SignUpCreatesProfile | app/src/main/java/com/example/chattingapp/LCViewModel.kt:104 | after a full success the profile under the new uid has the given name and number, and is the whole built profile when none existed |
| CoordinatorFacts.ProfileNeedsUser | app/src/main/java/com/example/chattingapp/LCViewModel.kt:151-156 | with nobody signed in, only "User not authenticated" is published |
| CoordinatorFacts.ProfileReadFails | app/src/main/java/com/example/chattingapp/LCViewModel.kt:199-202 | a failed read of the profile document publishes "Error checking profile existence", writes nothing and ends with inProcess false; the whole resulting state is given |
| CoordinatorFacts.ProfileWriteFails | app/src/main/java/com/example/chattingapp/LCViewModel.kt:194-197 | a failed update or set publishes "Failed to save profile", leaves the store unchanged and ends with inProcess false; the whole resulting state is given |
| CoordinatorFacts.ProfileNeedsFields | app/src/main/java/com/example/chattingapp/LCViewModel.kt:158-161 | a null or empty name or number only publishes "Name and Number cannot be empty" |
| CoordinatorFacts.ProfileSettles | app/src/main/java/com/example/chattingapp/LCViewModel.kt:163-202 | once the checks pass the document read goes first, every outcome clears inProcess, and a failed read or write leaves the backend as it was |
| CoordinatorFacts.ProfileSaves | app/src/main/java/com/example/chattingapp/LCViewModel.kt:172-193 | a successful save stores name, number and image under the uid and clears inProcess; the updated or created message is the first message after the write, and the only one when both listener emissions succeed |
| CoordinatorFacts.ProfileSavedThenListenerFails | app/src/main/java/com/example/chattingapp/LCViewModel.kt:189-193 | when the profile listener then fails, its "Cannot retrieve User" follows the success message and is the last one |
| CoordinatorFacts.ProfileUpdatesInPlace | app/src/main/java/com/example/chattingapp/LCViewModel.kt:176-183 | an existing document keeps all other fields and all other documents; only name, userNumber and imageUrl change, imageUrl falling back to the loaded image |
| CoordinatorFacts.ProfileCreatesWhole | app/src/main/java/com/example/chattingapp/LCViewModel.kt:184-186 | a missing document is created whole, appended to the storage order, and reads back as the built profile with the uid as userId |
| CoordinatorFacts.ProfileKeepsConsistent | app/src/main/java/com/example/chattingapp/LCViewModel.kt:146-203 | a profile save keeps the user storage order consistent |
| CoordinatorFacts.SignInMissingField | app/src/main/java/com/example/chattingapp/LCViewModel.kt:122-123 | an empty email or password only publishes "Please fill in all fields" |
| CoordinatorFacts.SignInAccepted | app/src/main/java/com/example/chattingapp/LCViewModel.kt:125-132 | a successful sign-in sets signIn, clears inProcess, makes the uid current and then listens to and loads that profile |
| CoordinatorFacts.SignInRejected | app/src/main/java/com/example/chattingapp/LCViewModel.kt:133-135 | a refused sign-in publishes "Login Failed", keeps signIn and leaves inProcess set |
| CoordinatorFacts.SignOutKeepsState | app/src/main/java/com/example/chattingapp/LCViewModel.kt:208-211 | sign-out clears signIn and the current user and keeps the profile, roster and messages |
| CoordinatorFacts.GetUserDataEmits | app/src/main/java/com/example/chattingapp/LCViewModel.kt:220-232 | a failed emission only publishes "Cannot retrieve User"; a successful one loads the profile (null without a document) and clears inProcess, and a loaded profile's roster is attached and taken, or "Failed to fetch chats" published with the roster kept |
| CoordinatorFacts.InitLoadsCurrentUser | app/src/main/java/com/example/chattingapp/LCViewModel.kt:63-69 | with no current user the view model starts empty; otherwise it is signed in and its first request listens to that user's profile |
| CoordinatorFacts.PopulateChatsProjects | app/src/main/java/com/example/chattingapp/LCViewModel.kt:366-400 | with no profile nothing happens; on success the roster is exactly the stored chats involving the user; on error the roster is kept and "Failed to fetch chats" published |
| CoordinatorFacts.AddChatRejectsNumber | app/src/main/java/com/example/chattingapp/LCViewModel.kt:285-288 | an empty number or one with a non-digit only publishes the invalid-number message |
| CoordinatorFacts.AddChatNeedsProfile | app/src/main/java/com/example/chattingapp/LCViewModel.kt:290-293 | without a loaded profile only "User data is unavailable" is published |
| CoordinatorFacts.AddChatExistingQueryFails | app/src/main/java/com/example/chattingapp/LCViewModel.kt:358-360 | a failed existing-chat query publishes "Failed to check existing chats" and sends no further request; the whole resulting state is given |
| CoordinatorFacts.AddChatPartnerQueryFails | app/src/main/java/com/example/chattingapp/LCViewModel.kt:354-356 | a failed partner query publishes "Failed to check user existence" and writes nothing; the whole resulting state is given |
| CoordinatorFacts.AddChatWriteFails | app/src/main/java/com/example/chattingapp/LCViewModel.kt:350-352 | a failed chat write publishes "Failed to create chat"; the chat collection, the roster and the rest of the session are unchanged apart from the three requests |
| CoordinatorFacts.AddChatExisting | app/src/main/java/com/example/chattingapp/LCViewModel.kt:296-314 | a chat the existence query finds stops the operation after that query with "Chat already exists" |
| CoordinatorFacts.AddChatUnknownNumber | app/src/main/java/com/example/chattingapp/LCViewModel.kt:317-324 | when no profile has that userNumber, "User not found" is published after the two queries and nothing is written |
| CoordinatorFacts.AddChatAppends | app/src/main/java/com/example/chattingapp/LCViewModel.kt:317-349 | otherwise exactly one chat of the current profile and the first matching profile is appended, after the three requests in order, "Chat added successfully" is published and the refreshed roster contains the chat |
| CoordinatorFacts.AddChatPartnerIsFirst | app/src/main/java/com/example/chattingapp/LCViewModel.kt:326 | the chat partner is the first profile in storage order with that userNumber |
| CoordinatorFacts.AddChatLeavesSession | app/src/main/java/com/example/chattingapp/LCViewModel.kt:284-361 | onAddChat keeps inProcess, signIn and the loaded profile |
| FieldNames.SaveUserNoNumberField | app/src/main/java/com/example/chattingapp/LCViewModel.kt:176-186 | neither profile write adds a "number" field |
| FieldNames.ProfileWritesNoNumberField | app/src/main/java/com/example/chattingapp/LCViewModel.kt:146-203 | a profile save keeps every user document without a "number" field |
| FieldNames.SignUpWritesNoNumberField | app/src/main/java/com/example/chattingapp/LCViewModel.kt:78-114 | sign-up keeps every user document without a "number" field |
| FieldNames.NumberCheckNeverFires | app/src/main/java/com/example/chattingapp/LCViewModel.kt:92-101 | while no document has "number", a successful query always leads to account creation |
| FieldNames.DuplicateNumberAccepted | app/src/main/java/com/example/chattingapp/LCViewModel.kt:92-109 | a second sign-up with a stored profile's userNumber succeeds, leaving two profiles with that number |
| FieldNames.AddChatWritesNoUserNumberPaths | app/src/main/java/com/example/chattingapp/LCViewModel.kt:328-345 | chats written by onAddChat never have the paths its existence check filters on |
| FieldNames.AddChatRepeatable | app/src/main/java/com/example/chattingapp/LCViewModel.kt:296-349 | one successful add appends the chat and leaves the profile, the partner query and the absence of the queried paths as they were |
| FieldNames.RepeatedAddChatDuplicates | app/src/main/java/com/example/chattingapp/LCViewModel.kt:296-349 | adding the same contact twice, with distinct generated ids, stores two chats of the same two people |
| FieldNames.SignUpKeepsConsistent | app/src/main/java/com/example/chattingapp/LCViewModel.kt:78-114 | sign-up keeps the user storage order consistent |
| FieldNames.OthersKeepUsers | app/src/main/java/com/example/chattingapp/LCViewModel.kt:121-138 | sign-in, sign-out and onAddChat leave the user collection and its order as they were |
| ViewModel.LCViewModel.constructor | app/src/main/java/com/example/chattingapp/LCViewModel.kt:63-69 | over a consistent backend, the new view model is in the state Init gives for it, and its backend is consistent |
| ViewModel.LCViewModel.PublishEvent | app/src/main/java/com/example/chattingapp/LCViewModel.kt:83 | a new unhandled event box carries the message, which is appended to the message log |
| ViewModel.LCViewModel.HandleException | app/src/main/java/com/example/chattingapp/LCViewModel.kt:270-277 | the state becomes Coordinator.HandleException of the old state, with one new unhandled box |
| ViewModel.LCViewModel.PopulateChats | app/src/main/java/com/example/chattingapp/LCViewModel.kt:366-400 | the state becomes Coordinator.PopulateChats of the old state |
| ViewModel.LCViewModel.GetUserData | app/src/main/java/com/example/chattingapp/LCViewModel.kt:220-232 | the state becomes Coordinator.GetUserData of the old state |
| ViewModel.LCViewModel.DeliverUser | app/src/main/java/com/example/chattingapp/LCViewModel.kt:221-231 | the state becomes Coordinator.DeliverUser of the old state |
| ViewModel.LCViewModel.CreateOrUpdateProfile | app/src/main/java/com/example/chattingapp/LCViewModel.kt:146-170 | the state becomes Coordinator.CreateOrUpdateProfile of the old state; a published message leaves a fresh unhandled box; a consistent backend stays consistent |
| ViewModel.LCViewModel.SaveProfile | app/src/main/java/com/example/chattingapp/LCViewModel.kt:172-202 | the state becomes Coordinator.SaveProfile of the old state |
| ViewModel.LCViewModel.WriteProfile | app/src/main/java/com/example/chattingapp/LCViewModel.kt:176-197 | the state becomes Coordinator.WriteProfile of the old state |
| ViewModel.LCViewModel.ProfileSaved | app/src/main/java/com/example/chattingapp/LCViewModel.kt:188-193 | the state becomes Coordinator.ProfileSaved of the old state: attach, clear inProcess, publish, then the listener's emission |
| ViewModel.LCViewModel.SignUp | app/src/main/java/com/example/chattingapp/LCViewModel.kt:78-90 | the state becomes Coordinator.SignUp of the old state; a published message leaves a fresh unhandled box; a consistent backend stays consistent |
| ViewModel.LCViewModel.RegisterIfNumberFree | app/src/main/java/com/example/chattingapp/LCViewModel.kt:92-113 | the state becomes Coordinator.RegisterIfNumberFree of the old state |
| ViewModel.LCViewModel.CreateAccountAndProfile | app/src/main/java/com/example/chattingapp/LCViewModel.kt:101-109 | the state becomes Coordinator.CreateAccountAndProfile of the old state |
| ViewModel.LCViewModel.SignIn | app/src/main/java/com/example/chattingapp/LCViewModel.kt:121-138 | the state becomes Coordinator.SignIn of the old state; a consistent backend stays consistent |
| ViewModel.LCViewModel.SignOut | app/src/main/java/com/example/chattingapp/LCViewModel.kt:208-211 | the state becomes Coordinator.SignOut of the old state, the event box is untouched, and a consistent backend stays consistent |
| ViewModel.LCViewModel.OnAddChat | app/src/main/java/com/example/chattingapp/LCViewModel.kt:284-294 | the state becomes Coordinator.OnAddChat of the old state; a published message leaves a fresh unhandled box; a consistent backend stays consistent |
| ViewModel.LCViewModel.AddChatIfAbsent | app/src/main/java/com/example/chattingapp/LCViewModel.kt:296-360 | the state becomes Coordinator.AddChatIfAbsent of the old state |
| ViewModel.LCViewModel.AddChatWithPartner | app/src/main/java/com/example/chattingapp/LCViewModel.kt:317-356 | the state becomes Coordinator.AddChatWithPartner of the old state |
| ViewModel.LCViewModel.WriteChat | app/src/main/java/com/example/chattingapp/LCViewModel.kt:345-352 | the state becomes Coordinator.WriteChat of the old state |
| ViewModel.LCViewModel.ChatSaved | app/src/main/java/com/example/chattingapp/LCViewModel.kt:346-349 | the state becomes Coordinator.ChatSaved of the old state |

## Left out

- Firebase Authentication, Firestore and Storage are not linked. Each call is one synchronous step whose reply is a parameter, so neither the interleaving of callbacks nor the race between a query and the write after it is modelled.
- `signUp` resets `inProcess` at LCViewModel.kt:108, after `createOrUpdateProfile` has started and before that call's callbacks run. The model applies the reset after those callbacks. `CoordinatorFacts.ProfileSettles` proves the callbacks already end with `inProcess` false, so the final state is the same; only the order of the intermediate writes differs.
- The view model is constructed over a backend whose storage order is consistent (`Store.Consistent`). That is a property of this model's representation, not of the source.
- Snapshot listeners are modelled by their first emission only. Later emissions, and the several listeners that repeated calls attach, are not modelled.
- Firestore's document order is abstracted as the order of first storage for users. Chats are a sequence in write order, and the generated chat id is a parameter that is assumed fresh.
- `Log.d`, `printStackTrace` and `ToastUtil.showToast` are left out because they are output only. `ToastUtil` and `GetContext` in data/Event.kt hold an Android `Context`.
- `updateLocalImagePath`, `saveImageLocally`, `saveProfileImage`, `getImageFromLocalStorage` and the field `localImagePath` are left out because they are file and bitmap handling. The field `inProcessChat` is left out because it is never written.
- The screens, navigation and dependency injection are not part of this model. Neither are the data classes in data/ whose field names the code uses (`UserData`, `ChatData`, `ChatUser`, `USER_NODE`, `CHATS`). Their properties are taken from the named arguments at LCViewModel.kt:165-170 and 328-342.
- The Android `isDigitsOnly` accepts any Unicode digit. The model accepts ASCII `0`-`9` only.
- String length is counted in Dafny characters, not UTF-16 code units. The password check can differ only on characters outside the Basic Multilingual Plane.
- `populateChats` computes an `otherUser` that it never uses. The model leaves it out because it does not affect the roster.
