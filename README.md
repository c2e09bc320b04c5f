# ChatMal core in Dafny

ChatMal is a Remix chat application backed by Prisma. Users register and log in with an email
and a password. They follow one another, and each follow is stored twice: the follower's id is
pushed onto the target's `followers` list, and the target's id onto the follower's `following`
list. Following someone opens a two-person conversation. That conversation is NORMAL when the
target already follows back and a REQUEST otherwise. The chat page lists the caller's NORMAL
conversations (oldest update first) and REQUEST conversations (newest first), and deletes a
conversation together with its messages. A message keeps a set of users who have seen it and a
list of users who deleted it for themselves.

The model has one module per source file:

- `Db`: the three Prisma tables (`users`, `conversations`, `messages`) as maps from id to row,
  inside a `class Db` whose fields the operations reassign. `NewId` plays the store's
  generation of fresh ids.
- `ResultServer` (`result.dfy`): the `Result` type of `app/utils/result.server.ts`.
- `Http`: form data, the `FormError` payload and the three ways a route handler ends: a JSON
  body, a redirect, or a thrown store error.
- `UserServer`, `ConversationServer`, `MessageServer`, `AuthServer`: the model files. Every
  write is a method on the `Db`. Its `ensures` gives the new tables as a function of the old
  ones, and the failure of Prisma's `update`/`delete` on a missing row is `RecordNotFound`.
  A lookup by key (`getUserById`, `getConversationById`, `getUserByList`) is a function. Every
  other `findFirst`/`findMany` is a read-only method whose result is pinned down by the
  properties the query promises, not by one particular order of the store.
- The user queries select no columns, so they return whole rows. `UserInfo` therefore carries
  the password hash, and the people page and the chat page send the hashes of the users they
  show to the browser.
- `UsersIndexRoute`, `RedirectChatRoute`, `ChatIndexRoute`: the loaders and actions of the
  three routes. The session is an `Option<Id>`.

The proved properties:

- Both `follow` and `unfollow` keep the two copies of every follow edge in step. This holds
  even when their second update fails.
- No follow list names a missing user. The empty store has this and the symmetry of edges.
  Registration keeps both, and so does the people page's action, whose follower is always
  the signed-in caller. The other writes leave the users table alone.
- Follow then unfollow restores the table, and unfollow is idempotent.
- Follow has no duplicate guard, and a user can follow itself.
- The guarded creation in the follow and redirect-chat actions keeps at most one conversation
  per pair of users.
- The two chat lists partition the caller's conversations that have messages, and accepting a
  request moves it from one list to the other.
- Deleting a conversation cascades to its messages and leaves no orphan message.
- Deleting a message hides it from that user only, and marking a message seen is idempotent.
- Registration keeps emails unique. With unique emails, login succeeds exactly when the
  password matches.

## Model

| member | source | states |
|---|---|---|
| UserServer.GetUserById | app/model/user.server.ts:17-21 | some user exactly when the id is a key, and then that user's whole row, password hash included |
| UserServer.GetUserByEmail | app/model/user.server.ts:11-15 | null exactly when no user has the email; otherwise the whole row of a user whose email it is |
| UserServer.GetUserForAuthentication | app/model/user.server.ts:55-63 | null exactly when no user has the email; otherwise the id of a user with that email |
| UserServer.CreateUser | app/model/user.server.ts:23-43 | adds exactly one row under a fresh id, with the email, the name, the hash of the password and empty follow lists |
| UserServer.AddUserKeepsEmailsUnique | app/model/user.server.ts:35-42 | adding a user whose email is not taken keeps emails unique |
| UserServer.GetAllFriends | app/model/user.server.ts:65-73 | every user except the caller, each once, with its whole current row |
| UserServer.GetUserByList | app/model/user.server.ts:141-151 | no more entries than input ids; each entry is a user named in the input; every input id that is a user appears |
| UserServer.GetUserByListAppend | app/model/user.server.ts:142-148 | the lookup keeps input order: the list of a concatenation is the concatenation of the lists |
| UserServer.Without | app/model/user.server.ts:128 | the filtered list drops every occurrence of the id and keeps the count of every other id |
| UserServer.WithoutAbsent | app/model/user.server.ts:128 | filtering out an id the list does not hold changes nothing |
| UserServer.WithoutAppend | app/model/user.server.ts:128 | filtering distributes over concatenation |
| UserServer.FollowWrites | app/model/user.server.ts:82-101 | the follower is pushed onto the target's followers; the target is pushed onto the follower's following only if the first update found its row; no other row changes |
| UserServer.UnfollowWrites | app/model/user.server.ts:111-138 | the target's followers lose the unfollower, then the unfollower's following loses the target only if the first update found its row; no other row changes |
| UserServer.Follow | app/model/user.server.ts:75-102 | the new users table is FollowWrites of the old one; ok exactly when both users exist; the other tables are untouched |
| UserServer.Unfollow | app/model/user.server.ts:104-139 | the new users table is UnfollowWrites of the old one; ok exactly when both users exist |
| UserServer.EmptyStoreIsConsistent | app/model/user.server.ts:23-43 | the empty users table has symmetric edges and no dangling ids |
| UserServer.AddUserKeepsConsistent | app/model/user.server.ts:35-42 | inserting a user with empty follow lists under a fresh id keeps both invariants |
| UserServer.FollowKeepsNoDangling | app/model/user.server.ts:82-101 | follow by an existing user leaves every listed id naming a user |
| UserServer.UnfollowKeepsNoDangling | app/model/user.server.ts:123-138 | unfollow leaves every listed id naming a user |
| UserServer.WithoutCount | app/model/user.server.ts:128 | the filtered list holds no copy of the id and as many copies of every other id as before |
| UserServer.WithoutSubset | app/model/user.server.ts:128 | the filtered list holds only ids of the original |
| UserServer.FollowKeepsPair | app/model/user.server.ts:82-101 | for one pair of users, follow keeps the two copies of their edge equal in number |
| UserServer.FollowKeepsSymmetric | app/model/user.server.ts:82-101 | follow keeps the two copies of every edge equal in number, including after a partial failure |
| UserServer.UnfollowKeepsSymmetric | app/model/user.server.ts:123-138 | unfollow keeps the two copies of every edge equal in number, including after a partial failure |
| UserServer.FollowTwiceRecordsTwice | app/model/user.server.ts:87-99 | with no duplicate guard, two follows push the edge twice on both sides |
| UserServer.SelfFollowIsRecorded | app/model/user.server.ts:82-101 | a user following itself ends up in its own followers and following |
| UserServer.UnfollowIdempotent | app/model/user.server.ts:123-138 | a second unfollow of the same pair changes nothing |
| UserServer.FollowThenUnfollowRestores | app/model/user.server.ts:75-139 | follow then unfollow of a pair with no edge gives back the original table |
| ConversationServer.CreateConversation | app/model/conversation.server.ts:11-28 | adds one row under a fresh id with the members and the status; it is a group chat exactly when there are more than two members |
| ConversationServer.UpdateConversation | app/model/conversation.server.ts:249-264 | only the status of that conversation changes; it fails on a missing id and then nothing changes |
| ConversationServer.MessagesOutside | app/model/conversation.server.ts:221-225 | exactly the messages of other conversations remain, each unchanged |
| ConversationServer.DeleteConversationById | app/model/conversation.server.ts:218-231 | the conversation's messages are deleted, then the conversation; a missing id fails after the messages are gone |
| ConversationServer.DeleteCascades | app/model/conversation.server.ts:221-230 | after the cascade no message of that conversation is left, all others stay, and no message is orphaned |
| ConversationServer.GetConversationById | app/model/conversation.server.ts:168-216 | the conversation exactly when the id is a key, else null |
| ConversationServer.IsConversationAlreadyExist | app/model/conversation.server.ts:146-166 | true exactly when some conversation has both users, in either argument order |
| ConversationServer.GetConversationByUserIds | app/model/conversation.server.ts:233-247 | a conversation holding both users, and null exactly when there is none |
| ConversationServer.GuardedCreateKeepsPairUnique | app/routes/_landing/users/_index/_layout.tsx:88-100 | opening a two-member conversation only when the pair has none keeps at most one conversation per pair |
| ConversationServer.ListingExists | app/model/conversation.server.ts:36-83 | every list query has an answer: all selected conversations, once each, sorted by update time |
| ConversationServer.GetConversations | app/model/conversation.server.ts:30-84 | exactly the user's NORMAL conversations that have a message, each once, in ascending updatedAt |
| ConversationServer.GetRequestedConversations | app/model/conversation.server.ts:86-144 | exactly the user's REQUEST conversations that have a message, each once, in descending updatedAt |
| ConversationServer.ListsPartition | app/model/conversation.server.ts:36-45 | each conversation of the user that has a message is in exactly one of the two lists |
| ConversationServer.AcceptMovesToNormal | app/model/conversation.server.ts:256-263 | setting a requested conversation to NORMAL moves it from the request list to the normal list |
| MessageServer.CreateMessage | app/model/message.server.ts:3-19 | adds one message under a fresh id with nobody in its seen and delete-for lists |
| MessageServer.DeletedFor | app/model/message.server.ts:28-39 | only that message changes, and only by the user joining its delete-for list |
| MessageServer.DeleteMessage | app/model/message.server.ts:21-40 | the message is hidden for the user and kept; a missing message fails and changes nothing |
| MessageServer.MarkedSeen | app/model/message.server.ts:51-65 | only that message changes, and only by the user joining its seen set |
| MessageServer.UpdateMessage | app/model/message.server.ts:42-66 | the seen user is connected and the text stays; it fails on a missing message or a missing or unknown seen user |
| MessageServer.DeleteIsPerUser | app/model/message.server.ts:28-39 | after the delete the message is hidden from that user, every other user sees it as before, and its text, sender and seen set stay |
| MessageServer.MarkSeenIdempotent | app/model/message.server.ts:51-65 | marking a message seen twice by one user is the same as once |
| AuthServer.Register | app/model/auth.server.ts:18-53 | a taken email is refused with the fixed message and nothing changes; otherwise exactly one user is added, a session is opened for it, emails stay unique, and the edges stay symmetric with no dangling id |
| AuthServer.Login | app/model/auth.server.ts:55-95 | an unknown email and a wrong password give the same message; with unique emails, success exactly when the password matches that user's hash, for that user |
| AuthServer.Authenticate | app/model/auth.server.ts:97-112 | the user exactly when the session holds an id that the lookup resolves; otherwise a redirect to /login |
| AuthServer.AuthenticateByIdSucceeds | app/model/auth.server.ts:97-112 | with the id lookup, authentication succeeds exactly when the session names a user, and yields that user |
| UsersIndexRoute.ParseFriendRequest | app/routes/_landing/users/_index/_layout.tsx:41-50 | accepts exactly a string userId with type follow or unfollow, and keeps both |
| UsersIndexRoute.FollowBranch | app/routes/_landing/users/_index/_layout.tsx:77-105 | a target already followed is refused with no change; otherwise the pair's conversation is opened when it has none, the follow writes are applied, it throws on a missing user, and the edge copies, the absence of dangling ids and pair uniqueness are kept |
| UsersIndexRoute.UnfollowBranch | app/routes/_landing/users/_index/_layout.tsx:106-112 | the unfollow writes are applied, it throws on a missing user, and the edge copies and the absence of dangling ids are kept |
| UsersIndexRoute.Action | app/routes/_landing/users/_index/_layout.tsx:52-118 | /login redirect, parse error, or already-followed error with no change; otherwise the follow or unfollow writes, plus a new conversation whose status follows the caller's followers when the pair has none; the edge copies, the absence of dangling ids and pair uniqueness are kept |
| UsersIndexRoute.Suggestions | app/routes/_landing/users/_index/_layout.tsx:133-135 | exactly the given users whose own lists hold no edge with the caller |
| UsersIndexRoute.SuggestionsAppend | app/routes/_landing/users/_index/_layout.tsx:133-135 | the filter keeps input order: the suggestions of a concatenation are the concatenation of the suggestions |
| UsersIndexRoute.SuggestionsKeepDistinct | app/routes/_landing/users/_index/_layout.tsx:133-135 | suggestions drawn from a list without repeats have no repeats |
| UsersIndexRoute.SuggestedMeansNoEdge | app/routes/_landing/users/_index/_layout.tsx:133-135 | while the edge copies agree, a suggestion is exactly a user the caller neither follows nor is followed by |
| UsersIndexRoute.Loader | app/routes/_landing/users/_index/_layout.tsx:120-145 | /login when not signed in; otherwise the suggested users exactly, each once with its whole row, and the caller's followers and followings resolved to users |
| RedirectChatRoute.ParseRequestUserId | app/routes/_landing/users/redirect-chat/_api.tsx:12-14 | accepts exactly a string requestUserId |
| RedirectChatRoute.Action | app/routes/_landing/users/redirect-chat/_api.tsx:16-53 | always a redirect: to /login, to /users on a bad payload, to an existing conversation of the pair with no change, or to a freshly created one; pair uniqueness is kept |
| ChatIndexRoute.Loader | app/routes/_landing/chat/_index/_layout.tsx:39-67 | /login when not signed in; otherwise the caller and the two conversation lists |
| ChatIndexRoute.ParseDelete | app/routes/_landing/chat/_index/_layout.tsx:30-35 | accepts exactly type "delete" with a string conversationId |
| ChatIndexRoute.Action | app/routes/_landing/chat/_index/_layout.tsx:69-96 | /login or parse error with no change; otherwise the cascade delete of the named conversation for any signed-in caller, throwing on a missing id |

## Left out

- The `Messages` and `users` included with each listed or fetched conversation are left out. The list queries return conversation ids, and `getConversationById` returns the row.
- `UsersIndexRoute.Loader`: the suggestions keep the order of `getAllFriends`, as `SuggestionsAppend` shows, but that order is the store's and is unspecified here.
- `UserServer.GetAllFriends`: the store's order is not modelled; the result is any listing of the other users.
- `ConversationServer.GetConversations`: rows with equal `updatedAt` may come in any order, since the store's tie-breaking is not specified. `GetRequestedConversations` is the same.
- `createdAt`, `updatedAt` upkeep, `role`, `lastActiveAt` and `lastLoginIp` are not modelled. A new conversation's `updatedAt` is the `now` parameter, and `updateConversation` does not restamp it.
- Password hashing (`bcrypt.hash`, `bcrypt.compare`) is a pair of function parameters. The cost factor 12 is not modelled.
- The session cookie is left out: `getUserId`, `commitSession`, `destroySession` and `logout`. The session is the `Option<Id>` a handler receives.
- The client IP address that `register` records is left out.
- `isUserFollowEachOther` is imported by the redirect-chat route from `app/model/user.server.ts`, but that file does not define it. Its answer is the `usersFollowEachOther` parameter.
- The zod error tree is reduced to a flag in `FormError`.
- The React components and every route not named above are not part of this model.
- Each handler runs alone. Concurrent requests, the transactions Prisma does not open between the two updates of `follow`, `unfollow` and the cascade delete, and the server-sent event endpoints are left out.

## Behaviour of the code worth knowing

- The follow action allows a user to follow itself, and a repeated follow is only refused through the caller's own `following` list.
- A follow or unfollow of a missing user throws rather than answering ok, and a follow still creates the conversation before throwing.
- The chat delete action checks neither membership nor existence before deleting the messages.
- `updateMessage` ignores its `message` argument, so the text never changes.
- The loaders of the people page and the chat page send whole user rows, password hashes
  included, because the user queries select no columns.
