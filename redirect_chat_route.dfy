/** The "message this user" endpoint (app/routes/_landing/users/redirect-chat/_api.tsx): finds
    the pair's conversation or opens one, and always ends in a thrown redirect. */
module RedirectChatRoute {
  import opened ResultServer
  import opened Db
  import opened Http
  import opened UserServer
  import opened ConversationServer
  import opened AuthServer

  const UsersPath := "/users"

  /** The page of one conversation. */
  function ChatPath(conversationId: Id): string
  {
    "/chat/" + conversationId
  }

  /** `RedirectChatFormSchema.safeParse`: a string `requestUserId`; other fields are ignored. */
  function ParseRequestUserId(fields: FormData): (r: Option<Id>)
    ensures r.Some? <==> IsText(fields, "requestUserId")
    ensures r.Some? ==> r.value == fields["requestUserId"].text
  {
    if IsText(fields, "requestUserId") then Some(fields["requestUserId"].text) else None
  }

  /** `action`. `usersFollowEachOther` is the answer of `isUserFollowEachOther` for the caller
      and the requested user, a function that is not part of this model. */
  method Action(db: Db, session: Option<Id>, fields: FormData, usersFollowEachOther: bool, now: int)
    returns (r: Response<()>)
    modifies db
    ensures r.Redirect?
    ensures !SignedIn(old(db.users), session) ==> r.location == LoginPath && unchanged(db)
    ensures SignedIn(old(db.users), session) && ParseRequestUserId(fields).None? ==>
      r.location == UsersPath && unchanged(db)
    ensures SignedIn(old(db.users), session) && ParseRequestUserId(fields).Some? ==>
      var caller, requestUserId := session.value, ParseRequestUserId(fields).value;
      && db.users == old(db.users) && db.messages == old(db.messages)
      && (SharedConversationExists(old(db.conversations), caller, requestUserId) ==>
            && db.conversations == old(db.conversations)
            && exists cid :: cid in db.conversations && HasBoth(db.conversations[cid], caller, requestUserId)
                             && r.location == ChatPath(cid))
      && (!SharedConversationExists(old(db.conversations), caller, requestUserId) ==>
            exists cid :: cid !in old(db.conversations) && r.location == ChatPath(cid) &&
              db.conversations == old(db.conversations)[cid := Conversation([caller, requestUserId], NORMAL_CHAT,
                                    if usersFollowEachOther then NORMAL else REQUEST, now)])
    ensures PairUnique(old(db.conversations)) ==> PairUnique(db.conversations)
  {
    var users := db.users;
    var me := Authenticate(session, userId => GetUserById(users, userId));
    AuthenticateByIdSucceeds(users, session);
    if me.Err? {
      return Redirect(me.error);
    }
    var id := me.data.id;

    var parsedResult := ParseRequestUserId(fields);
    if parsedResult.None? {
      return Redirect(UsersPath);
    }
    var requestUserId := parsedResult.value;

    var conversation := GetConversationByUserIds(db, id, requestUserId);
    if conversation.None? {
      ghost var before := db.conversations;
      var createdId, created := CreateConversation(db, [id, requestUserId],
                                                   if usersFollowEachOther then NORMAL else REQUEST, now);
      if PairUnique(before) {
        GuardedCreateKeepsPairUnique(before, createdId, created, id, requestUserId);
      }
      return Redirect(ChatPath(createdId));
    }
    r := Redirect(ChatPath(conversation.value));
  }
}
