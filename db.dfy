/** The relational store behind every model module, as three in-memory tables keyed by id.
    It stands for the shared Prisma client of app/utils/db.server.js. */
module Db {

  type Id = string

  datatype ChatStatus = NORMAL | REQUEST

  datatype ChatType = NORMAL_CHAT | GROUP_CHAT

  /** A row of the users table. `followers` and `following` are scalar lists of ids. */
  datatype User = User(email: string, name: string, passwordHash: string,
                       followers: seq<Id>, following: seq<Id>)

  /** A row of the conversations table. `updatedAt` is the store's timestamp, as an integer. */
  datatype Conversation = Conversation(userIds: seq<Id>, kind: ChatType, status: ChatStatus,
                                       updatedAt: int)

  /** A row of the messages table. `seen` is the set of users connected through the
      many-to-many relation; `deleteFor` holds the user id of every `DeleteForUserIds` row
      created for the message, in creation order. */
  datatype Message = Message(conversationId: Id, senderId: Id, text: string,
                             seen: set<Id>, deleteFor: seq<Id>)

  /** What Prisma raises when `update` or `delete` names a missing id, or `connect` names a
      missing row. */
  datatype DbError = RecordNotFound

  class Db {
    var users: map<Id, User>
    var conversations: map<Id, Conversation>
    var messages: map<Id, Message>

    constructor ()
      ensures users == map[] && conversations == map[] && messages == map[]
    {
      users, conversations, messages := map[], map[], map[];
    }
  }

  /** A bound strictly above the length of every id in `used`. */
  ghost function LengthBound(used: set<Id>): (n: nat)
    ensures forall id :: id in used ==> |id| < n
    decreases used
  {
    if used == {} then 0
    else
      var id :| id in used;
      var rest := LengthBound(used - {id});
      if rest <= |id| then |id| + 1 else rest
  }

  /** Every finite set of ids misses some id: one longer than all of them. */
  lemma FreshIdExists(used: set<Id>)
    ensures exists id: Id :: id !in used
  {
    var n := LengthBound(used);
    var long: Id := seq(n, _ => 'x');
    assert long !in used;
  }

  /** The id the store gives a newly created row: one no row of `table` has yet. */
  method NewId<T>(table: map<Id, T>) returns (id: Id)
    ensures id !in table
  {
    FreshIdExists(table.Keys);
    id :| id !in table.Keys;
  }
}
