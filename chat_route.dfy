/** The conversation list page (app/routes/_landing/chat/_index/_layout.tsx): the loader that
    splits the caller's conversations into normal ones and requests, and the delete action. */
module ChatIndexRoute {
  import opened ResultServer
  import opened Db
  import opened Http
  import opened UserServer
  import opened ConversationServer
  import opened AuthServer

  /** What the loader hands the page; the conversations are given by id. */
  datatype ChatLists = ChatLists(currentUser: UserInfo, normalConversations: seq<Id>,
                                 requestConversations: seq<Id>)

  /** `loader`: the caller's NORMAL list and REQUEST list. */
  method Loader(db: Db, session: Option<Id>) returns (r: Response<ChatLists>)
    ensures !SignedIn(db.users, session) ==> r == Redirect(LoginPath)
    ensures SignedIn(db.users, session) ==>
      && r.Json?
      && r.body.currentUser == Info(session.value, db.users[session.value])
      && IsListing(r.body.normalConversations, db.conversations, db.messages, session.value, NORMAL, true)
      && IsListing(r.body.requestConversations, db.conversations, db.messages, session.value, REQUEST, false)
  {
    var users := db.users;
    var user := Authenticate(session, userId => GetUserById(users, userId));
    AuthenticateByIdSucceeds(users, session);
    if user.Err? {
      return Redirect(user.error);
    }
    var conversation := GetConversations(db, user.data.id);
    var requestedConversations := GetRequestedConversations(db, user.data.id);
    r := Json(ChatLists(user.data, conversation, requestedConversations));
  }

  /** `ConversationFormSchema.safeParse`: a `type` of "delete" and a string `conversationId`;
      other fields are ignored. */
  function ParseDelete(fields: FormData): (r: Option<Id>)
    ensures r.Some? <==> "type" in fields && fields["type"] == Text("delete") && IsText(fields, "conversationId")
    ensures r.Some? ==> r.value == fields["conversationId"].text
  {
    if "type" in fields && fields["type"] == Text("delete") && IsText(fields, "conversationId")
    then Some(fields["conversationId"].text)
    else None
  }

  /** `action`: deletes the named conversation and its messages for any signed-in caller,
      member or not. Deleting a missing conversation throws, after its messages are gone. */
  method Action(db: Db, session: Option<Id>, fields: FormData) returns (r: Response<Result<(), FormError>>)
    modifies db
    ensures !SignedIn(old(db.users), session) ==> r == Redirect(LoginPath) && unchanged(db)
    ensures SignedIn(old(db.users), session) && ParseDelete(fields).None? ==>
      r == Json(Err(FormError(fields, true, None))) && unchanged(db)
    ensures SignedIn(old(db.users), session) && ParseDelete(fields).Some? ==>
      var conversationId := ParseDelete(fields).value;
      && db.conversations == old(db.conversations) - {conversationId}
      && db.messages == MessagesOutside(old(db.messages), conversationId)
      && db.users == old(db.users)
      && r == (if conversationId in old(db.conversations) then Json(Ok(())) else Thrown(RecordNotFound))
  {
    var users := db.users;
    var me := Authenticate(session, userId => GetUserById(users, userId));
    AuthenticateByIdSucceeds(users, session);
    if me.Err? {
      return Redirect(me.error);
    }
    var parsedResult := ParseDelete(fields);
    if parsedResult.None? {
      return Json(Err(FormError(fields, true, None)));
    }
    var deleted := DeleteConversationById(db, parsedResult.value);
    if deleted.Err? {
      return Thrown(deleted.error);
    }
    r := Json(Ok(()));
  }
}
