/** Conversations and the per-user conversation lists (app/model/conversation.server.ts). */
module ConversationServer {
  import opened ResultServer
  import opened Db

  // ---------------------------------------------------------------- creation and updates

  /** `createConversation`: a new row with the given members and status; more than two members
      make a group chat. `now` is the timestamp the store gives the row. */
  method CreateConversation(db: Db, members: seq<Id>, status: ChatStatus, now: int)
    returns (id: Id, c: Conversation)
    modifies db
    ensures id !in old(db.conversations)
    ensures c.userIds == members && c.status == status && c.updatedAt == now
    ensures c.kind == GROUP_CHAT <==> |members| > 2
    ensures db.conversations == old(db.conversations)[id := c]
    ensures db.users == old(db.users) && db.messages == old(db.messages)
  {
    id := NewId(db.conversations);
    c := Conversation(members, if |members| > 2 then GROUP_CHAT else NORMAL_CHAT, status, now);
    db.conversations := db.conversations[id := c];
  }

  /** `updateConversation`: sets the status of one conversation; fails on a missing id. */
  method UpdateConversation(db: Db, conversationId: Id, status: ChatStatus)
    returns (r: Result<(), DbError>)
    modifies db
    ensures r.Ok? <==> conversationId in old(db.conversations)
    ensures r.Err? ==> r.error == RecordNotFound
    ensures db.conversations == if r.Ok?
      then old(db.conversations)[conversationId := old(db.conversations)[conversationId].(status := status)]
      else old(db.conversations)
    ensures db.users == old(db.users) && db.messages == old(db.messages)
  {
    if conversationId !in db.conversations {
      return Err(RecordNotFound);
    }
    var row := db.conversations[conversationId];
    db.conversations := db.conversations[conversationId := row.(status := status)];
    r := Ok(());
  }

  /** The messages table after `deleteMany({ where: { conversationId } })`. */
  function MessagesOutside(msgs: map<Id, Message>, conversationId: Id): (r: map<Id, Message>)
    ensures forall m :: m in r <==> m in msgs && msgs[m].conversationId != conversationId
    ensures forall m :: m in r ==> r[m] == msgs[m]
  {
    map m | m in msgs && msgs[m].conversationId != conversationId :: msgs[m]
  }

  /** `deleteConversationById`: deletes the conversation's messages, then the conversation.
      The second step fails on a missing id, after the first has run. */
  method DeleteConversationById(db: Db, conversationId: Id) returns (r: Result<(), DbError>)
    modifies db
    ensures db.messages == MessagesOutside(old(db.messages), conversationId)
    ensures db.conversations == old(db.conversations) - {conversationId}
    ensures r.Ok? <==> conversationId in old(db.conversations)
    ensures r.Err? ==> r.error == RecordNotFound
    ensures db.users == old(db.users)
  {
    db.messages := map m | m in db.messages && db.messages[m].conversationId != conversationId
                     :: db.messages[m];
    if conversationId !in db.conversations {
      return Err(RecordNotFound);
    }
    db.conversations := db.conversations - {conversationId};
    r := Ok(());
  }

  /** Every message belongs to a conversation that exists. */
  ghost predicate NoOrphans(convs: map<Id, Conversation>, msgs: map<Id, Message>)
  {
    forall m :: m in msgs ==> msgs[m].conversationId in convs
  }

  /** The cascade leaves no message of the deleted conversation behind, keeps every other
      message as it was, and so keeps every remaining message attached to a conversation. */
  lemma DeleteCascades(convs: map<Id, Conversation>, msgs: map<Id, Message>, conversationId: Id)
    requires NoOrphans(convs, msgs)
    ensures var left := MessagesOutside(msgs, conversationId);
      && !HasMessages(left, conversationId)
      && (forall m :: m in msgs && msgs[m].conversationId != conversationId ==> m in left && left[m] == msgs[m])
      && NoOrphans(convs - {conversationId}, left)
  {
  }

  // ---------------------------------------------------------------- lookups

  /** `getConversationById`: the conversation with that id, or null. */
  function GetConversationById(convs: map<Id, Conversation>, conversationId: Id): (r: Option<Conversation>)
    ensures r.Some? <==> conversationId in convs
    ensures r.Some? ==> r.value == convs[conversationId]
  {
    if conversationId in convs then Some(convs[conversationId]) else None
  }

  /** `hasEvery: [a, b]` on the member list of a conversation. */
  predicate HasBoth(c: Conversation, a: Id, b: Id)
  {
    a in c.userIds && b in c.userIds
  }

  /** Some conversation, direct or group, has both users among its members. */
  ghost predicate SharedConversationExists(convs: map<Id, Conversation>, a: Id, b: Id)
  {
    exists cid :: cid in convs && HasBoth(convs[cid], a, b)
  }

  /** `isConversationAlreadyExist`: whether some conversation has both users; the order of
      the two ids does not matter. */
  method IsConversationAlreadyExist(db: Db, currentUserId: Id, userId: Id) returns (r: bool)
    ensures r <==> SharedConversationExists(db.conversations, currentUserId, userId)
    ensures r <==> SharedConversationExists(db.conversations, userId, currentUserId)
  {
    var conversation: Option<Id> := None;
    if cid :| cid in db.conversations && HasBoth(db.conversations[cid], currentUserId, userId) {
      conversation := Some(cid);
    }
    r := conversation.Some?;
  }

  /** `getConversationByUserIds`: some conversation that has both users, or null exactly when
      `isConversationAlreadyExist` says there is none. */
  method GetConversationByUserIds(db: Db, firstId: Id, secondId: Id) returns (r: Option<Id>)
    ensures r.Some? ==> r.value in db.conversations && HasBoth(db.conversations[r.value], firstId, secondId)
    ensures r.None? <==> !SharedConversationExists(db.conversations, firstId, secondId)
  {
    if cid :| cid in db.conversations && HasBoth(db.conversations[cid], firstId, secondId) {
      r := Some(cid);
    } else {
      r := None;
    }
  }

  /** At most one conversation per pair of distinct users. */
  ghost predicate PairUnique(convs: map<Id, Conversation>)
  {
    forall c1, c2, a, b ::
      (c1 in convs && c2 in convs && a != b && HasBoth(convs[c1], a, b) && HasBoth(convs[c2], a, b))
      ==> c1 == c2
  }

  /** Opening a two-member conversation only after checking that the pair has none keeps one
      conversation per pair. */
  lemma GuardedCreateKeepsPairUnique(convs: map<Id, Conversation>, cid: Id, c: Conversation, a: Id, b: Id)
    requires PairUnique(convs) && cid !in convs
    requires c.userIds == [a, b] && !SharedConversationExists(convs, a, b)
    ensures PairUnique(convs[cid := c])
  {
    var after := convs[cid := c];
    forall c1, c2, x, y | c1 in after && c2 in after && x != y &&
      HasBoth(after[c1], x, y) && HasBoth(after[c2], x, y)
      ensures c1 == c2
    {
      if c1 == cid || c2 == cid {
        assert (x == a && y == b) || (x == b && y == a);
      }
    }
  }

  // ---------------------------------------------------------------- per-user lists

  /** At least one message belongs to the conversation (`Messages: { some: {} }`). */
  predicate HasMessages(msgs: map<Id, Message>, conversationId: Id)
  {
    exists m :: m in msgs && msgs[m].conversationId == conversationId
  }

  /** The filter of both list queries: the user is a member, the status matches, and the
      conversation has a message. */
  predicate Selected(convs: map<Id, Conversation>, msgs: map<Id, Message>, userId: Id,
                     status: ChatStatus, cid: Id)
  {
    cid in convs && userId in convs[cid].userIds && convs[cid].status == status && HasMessages(msgs, cid)
  }

  /** `orderBy: { updatedAt: "asc" }` or `"desc"`, between two neighbours of a list. */
  predicate InOrder(a: Conversation, b: Conversation, ascending: bool)
  {
    if ascending then a.updatedAt <= b.updatedAt else a.updatedAt >= b.updatedAt
  }

  /** `r` is an answer of the list query: every selected conversation exactly once, sorted by
      `updatedAt` in the given direction (ties in any order). */
  predicate IsListing(r: seq<Id>, convs: map<Id, Conversation>, msgs: map<Id, Message>,
                      userId: Id, status: ChatStatus, ascending: bool)
  {
    && (forall i :: 0 <= i < |r| ==> Selected(convs, msgs, userId, status, r[i]))
    && (forall cid :: cid in convs && Selected(convs, msgs, userId, status, cid) ==> cid in r)
    && (forall i, j :: 0 <= i < j < |r| ==>
          r[i] != r[j] && r[i] in convs && r[j] in convs && InOrder(convs[r[i]], convs[r[j]], ascending))
  }

  /** A conversation of `s` that may come first. */
  ghost function Foremost(s: set<Id>, convs: map<Id, Conversation>, ascending: bool): (x: Id)
    requires s != {} && s <= convs.Keys
    ensures x in s && forall y :: y in s ==> InOrder(convs[x], convs[y], ascending)
    decreases s
  {
    var y :| y in s;
    if s == {y} then y
    else
      var z := Foremost(s - {y}, convs, ascending);
      if InOrder(convs[y], convs[z], ascending) then y else z
  }

  /** Some sorted enumeration of `s`. */
  ghost function SortedBy(s: set<Id>, convs: map<Id, Conversation>, ascending: bool): (r: seq<Id>)
    requires s <= convs.Keys
    ensures forall i :: 0 <= i < |r| ==> r[i] in s
    ensures forall x :: x in s ==> x in r
    ensures forall i, j :: 0 <= i < j < |r| ==> r[i] != r[j] && InOrder(convs[r[i]], convs[r[j]], ascending)
    decreases s
  {
    if s == {} then []
    else
      var x := Foremost(s, convs, ascending);
      var rest := SortedBy(s - {x}, convs, ascending);
      var r := [x] + rest;
      assert forall i :: 0 < i < |r| ==> r[i] == rest[i - 1] && r[i] in s - {x};
      assert forall y :: y in s ==> y == x || y in rest;
      forall i, j | 0 <= i < j < |r|
        ensures r[i] != r[j] && InOrder(convs[r[i]], convs[r[j]], ascending)
      {
        if i > 0 {
          assert r[i] == rest[i - 1] && r[j] == rest[j - 1];
        }
      }
      r
  }

  /** Every list query has an answer. */
  lemma ListingExists(convs: map<Id, Conversation>, msgs: map<Id, Message>, userId: Id,
                      status: ChatStatus, ascending: bool)
    ensures exists r :: IsListing(r, convs, msgs, userId, status, ascending)
  {
    var s := set cid | cid in convs && Selected(convs, msgs, userId, status, cid);
    var r := SortedBy(s, convs, ascending);
    assert IsListing(r, convs, msgs, userId, status, ascending);
  }

  /** `getConversations`: the user's NORMAL conversations that have messages, oldest update first. */
  method GetConversations(db: Db, userId: Id) returns (r: seq<Id>)
    ensures IsListing(r, db.conversations, db.messages, userId, NORMAL, true)
  {
    ListingExists(db.conversations, db.messages, userId, NORMAL, true);
    r :| IsListing(r, db.conversations, db.messages, userId, NORMAL, true);
  }

  /** `getRequestedConversations`: the user's REQUEST conversations that have messages, newest
      update first. */
  method GetRequestedConversations(db: Db, userId: Id) returns (r: seq<Id>)
    ensures IsListing(r, db.conversations, db.messages, userId, REQUEST, false)
  {
    ListingExists(db.conversations, db.messages, userId, REQUEST, false);
    r :| IsListing(r, db.conversations, db.messages, userId, REQUEST, false);
  }

  /** The two lists split the user's conversations that have messages: each such
      conversation is in exactly one of them. */
  lemma ListsPartition(convs: map<Id, Conversation>, msgs: map<Id, Message>, userId: Id,
                       normal: seq<Id>, requested: seq<Id>, cid: Id)
    requires IsListing(normal, convs, msgs, userId, NORMAL, true)
    requires IsListing(requested, convs, msgs, userId, REQUEST, false)
    ensures cid in normal ==> cid !in requested
    ensures cid in convs && userId in convs[cid].userIds && HasMessages(msgs, cid) ==>
      (cid in normal <==> cid !in requested)
  {
  }

  /** Setting a requested conversation's status to NORMAL moves it from the request list to
      the normal list. */
  lemma AcceptMovesToNormal(convs: map<Id, Conversation>, msgs: map<Id, Message>, userId: Id,
                            cid: Id, normal: seq<Id>, requested: seq<Id>)
    requires Selected(convs, msgs, userId, REQUEST, cid)
    requires IsListing(normal, convs[cid := convs[cid].(status := NORMAL)], msgs, userId, NORMAL, true)
    requires IsListing(requested, convs[cid := convs[cid].(status := NORMAL)], msgs, userId, REQUEST, false)
    ensures cid in normal && cid !in requested
  {
    var accepted := convs[cid := convs[cid].(status := NORMAL)];
    assert Selected(accepted, msgs, userId, NORMAL, cid);
  }
}
