/** Messages: creation, deletion for one user, and seen tracking (app/model/message.server.ts). */
module MessageServer {
  import opened ResultServer
  import opened Db

  /** A message shows in a user's chat until that user has deleted it for themselves. */
  predicate VisibleTo(m: Message, userId: Id)
  {
    userId !in m.deleteFor
  }

  /** The messages table after a `DeleteForUserIds` row for `userId` is created under `messageId`. */
  function DeletedFor(msgs: map<Id, Message>, messageId: Id, userId: Id): (r: map<Id, Message>)
    requires messageId in msgs
    ensures r.Keys == msgs.Keys
    ensures r[messageId] == msgs[messageId].(deleteFor := msgs[messageId].deleteFor + [userId])
    ensures forall m :: m in msgs && m != messageId ==> r[m] == msgs[m]
  {
    msgs[messageId := msgs[messageId].(deleteFor := msgs[messageId].deleteFor + [userId])]
  }

  /** The messages table after the user `seenId` is connected to the message's `seen` relation. */
  function MarkedSeen(msgs: map<Id, Message>, messageId: Id, seenId: Id): (r: map<Id, Message>)
    requires messageId in msgs
    ensures r.Keys == msgs.Keys
    ensures r[messageId] == msgs[messageId].(seen := msgs[messageId].seen + {seenId})
    ensures forall m :: m in msgs && m != messageId ==> r[m] == msgs[m]
  {
    msgs[messageId := msgs[messageId].(seen := msgs[messageId].seen + {seenId})]
  }

  /** `createMessage`: inserts one message with nobody in its seen and delete-for lists.
      Nothing checks that the conversation exists or that the sender is one of its members. */
  method CreateMessage(db: Db, conversationId: Id, senderId: Id, message: string)
    modifies db
    ensures exists id :: id !in old(db.messages) && db.messages == old(db.messages)[id := Message(conversationId, senderId, message, {}, [])]
    ensures db.users == old(db.users) && db.conversations == old(db.conversations)
  {
    var id := NewId(db.messages);
    db.messages := db.messages[id := Message(conversationId, senderId, message, {}, [])];
  }

  /** `deleteMessage`: hides the message for one user by recording that user against it; the
      message itself stays. Fails on a missing id. */
  method DeleteMessage(db: Db, messageId: Id, userId: Id) returns (r: Result<(), DbError>)
    modifies db
    ensures r.Ok? <==> messageId in old(db.messages)
    ensures r.Err? ==> r.error == RecordNotFound
    ensures db.messages == if r.Ok? then DeletedFor(old(db.messages), messageId, userId) else old(db.messages)
    ensures db.users == old(db.users) && db.conversations == old(db.conversations)
  {
    if messageId !in db.messages {
      return Err(RecordNotFound);
    }
    var row := db.messages[messageId];
    db.messages := db.messages[messageId := row.(deleteFor := row.deleteFor + [userId])];
    r := Ok(());
  }

  /** `updateMessage`: connects `seenId` to the message's seen users. The `message` argument is
      never written, so the text stays. Fails on a missing message, and when `seenId` is absent
      or names no user, since `connect` then finds nothing to connect. */
  method UpdateMessage(db: Db, messageId: Id, message: Option<string>, seenId: Option<Id>)
    returns (r: Result<(), DbError>)
    modifies db
    ensures r.Ok? <==> messageId in old(db.messages) && seenId.Some? && seenId.value in old(db.users)
    ensures r.Err? ==> r.error == RecordNotFound
    ensures db.messages == if r.Ok? then MarkedSeen(old(db.messages), messageId, seenId.value) else old(db.messages)
    ensures r.Ok? ==> db.messages[messageId].text == old(db.messages)[messageId].text
    ensures db.users == old(db.users) && db.conversations == old(db.conversations)
  {
    if messageId !in db.messages || seenId.None? || seenId.value !in db.users {
      return Err(RecordNotFound);
    }
    var row := db.messages[messageId];
    db.messages := db.messages[messageId := row.(seen := row.seen + {seenId.value})];
    r := Ok(());
  }

  /** Deleting a message for one user hides it from that user only: every other user sees it
      as before, its text, sender and seen users stay, and every other message is untouched. */
  lemma DeleteIsPerUser(msgs: map<Id, Message>, messageId: Id, userId: Id, other: Id)
    requires messageId in msgs && other != userId
    ensures var r := DeletedFor(msgs, messageId, userId);
      && !VisibleTo(r[messageId], userId)
      && VisibleTo(r[messageId], other) == VisibleTo(msgs[messageId], other)
      && r[messageId].text == msgs[messageId].text
      && r[messageId].senderId == msgs[messageId].senderId
      && r[messageId].seen == msgs[messageId].seen
      && forall m :: m in msgs && m != messageId ==> r[m] == msgs[m]
  {
    var r := DeletedFor(msgs, messageId, userId);
    assert r[messageId].deleteFor[|r[messageId].deleteFor| - 1] == userId;
  }

  /** Marking a message seen twice by the same user is the same as once. */
  lemma MarkSeenIdempotent(msgs: map<Id, Message>, messageId: Id, seenId: Id)
    requires messageId in msgs
    ensures MarkedSeen(MarkedSeen(msgs, messageId, seenId), messageId, seenId)
         == MarkedSeen(msgs, messageId, seenId)
  {
  }
}
