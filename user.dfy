/** Users and the follow graph (app/model/user.server.ts). */
module UserServer {
  import opened ResultServer
  import opened Db

  /** A user as the user queries return it. The source types it as `UserInfo`, a projection
      without the password hash, but the queries select no columns, so the whole row comes
      back, hash included, and the routes pass it on to the page. */
  datatype UserInfo = UserInfo(id: Id, email: string, name: string, passwordHash: string,
                               followers: seq<Id>, following: seq<Id>)

  /** The row of user `id` as a query returns it. */
  function Info(id: Id, u: User): UserInfo
  {
    UserInfo(id, u.email, u.name, u.passwordHash, u.followers, u.following)
  }

  /** Some entry of `r` is the user `id`. */
  predicate Names(r: seq<UserInfo>, id: Id)
  {
    exists i :: 0 <= i < |r| && r[i].id == id
  }

  lemma NamesPrepend(u: UserInfo, rest: seq<UserInfo>, id: Id)
    ensures Names([u] + rest, id) <==> u.id == id || Names(rest, id)
  {
    var r := [u] + rest;
    assert r[0].id == u.id;
    if Names(rest, id) {
      var i :| 0 <= i < |rest| && rest[i].id == id;
      assert r[i + 1].id == id;
    }
    if Names(r, id) && u.id != id {
      var i :| 0 <= i < |r| && r[i].id == id;
      assert rest[i - 1].id == id;
    }
  }

  // ---------------------------------------------------------------- lookups

  /** `getUserById`: the user with that id, or null. */
  function GetUserById(users: map<Id, User>, id: Id): (r: Option<UserInfo>)
    ensures r.Some? <==> id in users
    ensures r.Some? ==> r.value.id == id && r.value == Info(id, users[id])
  {
    if id in users then Some(Info(id, users[id])) else None
  }

  ghost predicate EmailTaken(users: map<Id, User>, email: string)
  {
    exists id :: id in users && users[id].email == email
  }

  /** No two users share an email. */
  ghost predicate UniqueEmails(users: map<Id, User>)
  {
    forall a, b :: a in users && b in users && users[a].email == users[b].email ==> a == b
  }

  /** `getUserForAuthentication`: the id of some user with that email (its row carries the
      password hash), or null when there is none. */
  method GetUserForAuthentication(db: Db, email: string) returns (r: Option<Id>)
    ensures r.Some? ==> r.value in db.users && db.users[r.value].email == email
    ensures r.None? <==> !EmailTaken(db.users, email)
  {
    if id :| id in db.users && db.users[id].email == email {
      r := Some(id);
    } else {
      r := None;
    }
  }

  /** `getUserByEmail`: some user with that email, or null when there is none. */
  method GetUserByEmail(db: Db, email: string) returns (r: Option<UserInfo>)
    ensures r.Some? ==> r.value.id in db.users && r.value == Info(r.value.id, db.users[r.value.id])
    ensures r.Some? ==> r.value.email == email
    ensures r.None? <==> !EmailTaken(db.users, email)
  {
    if id :| id in db.users && db.users[id].email == email {
      r := Some(Info(id, db.users[id]));
    } else {
      r := None;
    }
  }

  /** `createUser`: inserts a user with that email and name, the hash of the password, and
      empty follower and following lists. `hash` stands for the password hashing library. */
  method CreateUser(db: Db, name: string, email: string, password: string, hash: string -> string)
    returns (u: UserInfo)
    modifies db
    ensures u.id !in old(db.users)
    ensures db.users == old(db.users)[u.id := User(email, name, hash(password), [], [])]
    ensures u == Info(u.id, db.users[u.id])
    ensures db.conversations == old(db.conversations) && db.messages == old(db.messages)
  {
    var id := NewId(db.users);
    var row := User(email, name, hash(password), [], []);
    db.users := db.users[id := row];
    u := Info(id, row);
  }

  /** Adding a user whose email nobody has keeps emails unique. */
  lemma AddUserKeepsEmailsUnique(users: map<Id, User>, id: Id, row: User)
    requires UniqueEmails(users) && !EmailTaken(users, row.email) && id !in users
    ensures UniqueEmails(users[id := row])
  {
  }

  /** `r` lists every user of `ids` exactly once, each with its current row. */
  predicate Lists(r: seq<UserInfo>, users: map<Id, User>, ids: set<Id>)
  {
    && (forall i :: 0 <= i < |r| ==> r[i].id in ids && r[i].id in users && r[i] == Info(r[i].id, users[r[i].id]))
    && (forall i, j :: 0 <= i < j < |r| ==> r[i].id != r[j].id)
    && (forall id :: id in ids ==> Names(r, id))
  }

  /** Some listing of the users in `ids`. */
  ghost function Enumerate(users: map<Id, User>, ids: set<Id>): (r: seq<UserInfo>)
    requires ids <= users.Keys
    ensures Lists(r, users, ids)
    decreases ids
  {
    if ids == {} then []
    else
      var id :| id in ids;
      var rest := Enumerate(users, ids - {id});
      var r := [Info(id, users[id])] + rest;
      forall x | x in ids ensures Names(r, x) {
        NamesPrepend(r[0], rest, x);
      }
      r
  }

  /** `getAllFriends`: every user but `userId`, in the store's order. */
  method GetAllFriends(db: Db, userId: Id) returns (r: seq<UserInfo>)
    ensures Lists(r, db.users, db.users.Keys - {userId})
  {
    ghost var listing := Enumerate(db.users, db.users.Keys - {userId});
    r :| Lists(r, db.users, db.users.Keys - {userId});
  }

  /** `getUserByList`: looks up each id in turn and keeps the users that exist. */
  function GetUserByList(users: map<Id, User>, ids: seq<Id>): (r: seq<UserInfo>)
    ensures |r| <= |ids|
    ensures forall i :: 0 <= i < |r| ==> r[i].id in ids && r[i].id in users && r[i] == Info(r[i].id, users[r[i].id])
    ensures forall x :: x in ids && x in users ==> Names(r, x)
  {
    if ids == [] then []
    else
      var rest := GetUserByList(users, ids[1..]);
      if ids[0] in users then
        var r := [Info(ids[0], users[ids[0]])] + rest;
        forall x | x in ids && x in users ensures Names(r, x) {
          NamesPrepend(r[0], rest, x);
        }
        r
      else rest
  }

  /** The lookup keeps the order of its input: the list of a concatenation is the
      concatenation of the lists. */
  lemma {:induction false} GetUserByListAppend(users: map<Id, User>, a: seq<Id>, b: seq<Id>)
    ensures GetUserByList(users, a + b) == GetUserByList(users, a) + GetUserByList(users, b)
    decreases |a|
  {
    if a == [] {
      assert a + b == b;
    } else {
      assert (a + b)[1..] == a[1..] + b;
      GetUserByListAppend(users, a[1..], b);
    }
  }

  // ---------------------------------------------------------------- the follow graph

  /** `s.filter((i) => i !== x)`. */
  function Without(s: seq<Id>, x: Id): (r: seq<Id>)
    ensures x !in r
    ensures forall y :: y != x ==> multiset(r)[y] == multiset(s)[y]
  {
    if s == [] then []
    else
      assert s == [s[0]] + s[1..];
      if s[0] == x then Without(s[1..], x) else [s[0]] + Without(s[1..], x)
  }

  /** Filtering out an absent id changes nothing. */
  lemma {:induction false} WithoutAbsent(s: seq<Id>, x: Id)
    requires x !in s
    ensures Without(s, x) == s
  {
    if s != [] {
      WithoutAbsent(s[1..], x);
    }
  }

  /** Filtering keeps the relative order of what it keeps. */
  lemma {:induction false} WithoutAppend(a: seq<Id>, b: seq<Id>, x: Id)
    ensures Without(a + b, x) == Without(a, x) + Without(b, x)
    decreases |a|
  {
    if a == [] {
      assert a + b == b;
    } else {
      assert (a + b)[1..] == a[1..] + b;
      WithoutAppend(a[1..], b, x);
    }
  }

  /** The follow edges are stored twice: B occurs in A.following as many times as A occurs in
      B.followers, for every pair of users. */
  ghost predicate Symmetric(users: map<Id, User>)
  {
    forall a, b :: a in users && b in users ==>
      multiset(users[a].following)[b] == multiset(users[b].followers)[a]
  }

  /** Every id on a follow list names a user. */
  ghost predicate NoDangling(users: map<Id, User>)
  {
    && (forall a, x :: a in users && x in users[a].followers ==> x in users)
    && (forall a, x :: a in users && x in users[a].following ==> x in users)
  }

  /** The store starts with no users, where both invariants of the follow graph hold. */
  lemma EmptyStoreIsConsistent(users: map<Id, User>)
    requires users == map[]
    ensures Symmetric(users) && NoDangling(users)
  {
  }

  /** Adding a user with empty follow lists under an id no list names keeps both invariants:
      the new user has no edge, and no row points at it. */
  lemma AddUserKeepsConsistent(users: map<Id, User>, id: Id, row: User)
    requires Symmetric(users) && NoDangling(users) && id !in users
    requires row.followers == [] && row.following == []
    ensures Symmetric(users[id := row]) && NoDangling(users[id := row])
  {
    var r := users[id := row];
    forall a, b | a in r && b in r
      ensures multiset(r[a].following)[b] == multiset(r[b].followers)[a]
    {
      if a == id || b == id {
        assert b != id ==> id !in users[b].followers;
        assert a != id ==> id !in users[a].following;
      } else {
        assert multiset(users[a].following)[b] == multiset(users[b].followers)[a];
      }
    }
  }

  /** The table after `follow({id, followerId})`: push `followerId` onto the followers of `id`,
      then push `id` onto the following of `followerId`. Each update fails on a missing id,
      and when the second fails the first stays applied. */
  function FollowWrites(users: map<Id, User>, id: Id, followerId: Id): (r: map<Id, User>)
    ensures r.Keys == users.Keys
    ensures forall x :: x in users ==> r[x] == users[x].(
      followers := users[x].followers + (if x == id then [followerId] else []),
      following := users[x].following + (if x == followerId && id in users then [id] else []))
  {
    if id !in users then users
    else
      var pushed := users[id := users[id].(followers := users[id].followers + [followerId])];
      if followerId !in pushed then pushed
      else pushed[followerId := pushed[followerId].(following := pushed[followerId].following + [id])]
  }

  /** The table after `unfollow({id, unFollowerId})`: both rows are read first; then the
      followers of `id` lose every `unFollowerId`, and the following of `unFollowerId` loses
      every `id`. Each update fails on a missing id, and when the second fails the first
      stays applied. */
  function UnfollowWrites(users: map<Id, User>, id: Id, unFollowerId: Id): (r: map<Id, User>)
    ensures r.Keys == users.Keys
    ensures forall x :: x in users ==> r[x] == users[x].(
      followers := if x == id then Without(users[x].followers, unFollowerId) else users[x].followers,
      following := if x == unFollowerId && id in users then Without(users[x].following, id)
                   else users[x].following)
  {
    if id !in users then users
    else
      var filtered := users[id := users[id].(followers := Without(users[id].followers, unFollowerId))];
      if unFollowerId !in filtered then filtered
      else filtered[unFollowerId := filtered[unFollowerId].(
        following := Without(users[unFollowerId].following, id))]
  }

  /** `follow`: two updates, each of which throws on a missing id. */
  method Follow(db: Db, id: Id, followerId: Id) returns (r: Result<(), DbError>)
    modifies db
    ensures db.users == FollowWrites(old(db.users), id, followerId)
    ensures r.Ok? <==> id in old(db.users) && followerId in old(db.users)
    ensures r.Err? ==> r.error == RecordNotFound
    ensures db.conversations == old(db.conversations) && db.messages == old(db.messages)
  {
    if id !in db.users {
      return Err(RecordNotFound);
    }
    var target := db.users[id];
    db.users := db.users[id := target.(followers := target.followers + [followerId])];
    if followerId !in db.users {
      return Err(RecordNotFound);
    }
    var follower := db.users[followerId];
    db.users := db.users[followerId := follower.(following := follower.following + [id])];
    r := Ok(());
  }

  /** `unfollow`: reads both users, then writes the filtered lists back, each update
      throwing on a missing id. */
  method Unfollow(db: Db, id: Id, unFollowerId: Id) returns (r: Result<(), DbError>)
    modifies db
    ensures db.users == UnfollowWrites(old(db.users), id, unFollowerId)
    ensures r.Ok? <==> id in old(db.users) && unFollowerId in old(db.users)
    ensures r.Err? ==> r.error == RecordNotFound
    ensures db.conversations == old(db.conversations) && db.messages == old(db.messages)
  {
    var currentUser := GetUserById(db.users, unFollowerId);
    var user := GetUserById(db.users, id);
    if user.None? {
      return Err(RecordNotFound);
    }
    var row := db.users[id];
    db.users := db.users[id := row.(followers := Without(user.value.followers, unFollowerId))];
    if currentUser.None? {
      return Err(RecordNotFound);
    }
    row := db.users[unFollowerId];
    db.users := db.users[unFollowerId := row.(following := Without(currentUser.value.following, id))];
    r := Ok(());
  }

  /** `follow` keeps the two copies of every edge in step, even when its second update fails. */
  lemma FollowKeepsSymmetric(users: map<Id, User>, id: Id, followerId: Id)
    requires Symmetric(users)
    ensures Symmetric(FollowWrites(users, id, followerId))
  {
    var r := FollowWrites(users, id, followerId);
    forall a, b | a in r && b in r
      ensures multiset(r[a].following)[b] == multiset(r[b].followers)[a]
    {
      FollowKeepsPair(users, id, followerId, a, b);
    }
  }

  /** The step of `FollowKeepsSymmetric` for one pair of users. */
  lemma FollowKeepsPair(users: map<Id, User>, id: Id, followerId: Id, a: Id, b: Id)
    requires a in users && b in users
    requires multiset(users[a].following)[b] == multiset(users[b].followers)[a]
    ensures var r := FollowWrites(users, id, followerId);
      multiset(r[a].following)[b] == multiset(r[b].followers)[a]
  {
    var pushedFollowing: seq<Id> := if a == followerId && id in users then [id] else [];
    var pushedFollowers: seq<Id> := if b == id then [followerId] else [];
    assert multiset(users[a].following + pushedFollowing)[b] == multiset(users[a].following)[b] + multiset(pushedFollowing)[b];
    assert multiset(users[b].followers + pushedFollowers)[a] == multiset(users[b].followers)[a] + multiset(pushedFollowers)[a];
  }

  /** Filtering drops every copy of `x` and keeps the count of everything else. */
  lemma WithoutCount(s: seq<Id>, x: Id, y: Id)
    ensures multiset(Without(s, x))[y] == if y == x then 0 else multiset(s)[y]
  {
    if y == x {
      assert y !in multiset(Without(s, x));
    }
  }

  /** `unfollow` keeps the two copies of every edge in step, even when its second update fails. */
  lemma UnfollowKeepsSymmetric(users: map<Id, User>, id: Id, unFollowerId: Id)
    requires Symmetric(users)
    ensures Symmetric(UnfollowWrites(users, id, unFollowerId))
  {
    var r := UnfollowWrites(users, id, unFollowerId);
    forall a, b | a in r && b in r
      ensures multiset(r[a].following)[b] == multiset(r[b].followers)[a]
    {
      assert multiset(users[a].following)[b] == multiset(users[b].followers)[a];
      if a == unFollowerId && id in users {
        WithoutCount(users[a].following, id, b);
      } else {
        assert r[a].following == users[a].following;
      }
      if b == id {
        WithoutCount(users[b].followers, unFollowerId, a);
      } else {
        assert r[b].followers == users[b].followers;
      }
    }
  }

  /** `follow` by an existing user names only users: the follower lands on a list only when it
      exists, and the target only once its row was found. */
  lemma FollowKeepsNoDangling(users: map<Id, User>, id: Id, followerId: Id)
    requires NoDangling(users) && followerId in users
    ensures NoDangling(FollowWrites(users, id, followerId))
  {
    var r := FollowWrites(users, id, followerId);
    forall a, x | a in r && x in r[a].followers ensures x in r {
      assert x in users[a].followers || x == followerId;
    }
    forall a, x | a in r && x in r[a].following ensures x in r {
      assert x in users[a].following || (x == id && id in users);
    }
  }

  /** Filtering keeps only ids the list held. */
  lemma WithoutSubset(s: seq<Id>, x: Id, y: Id)
    requires y in Without(s, x)
    ensures y in s
  {
    assert multiset(Without(s, x))[y] > 0;
  }

  /** `unfollow` only removes ids, so no list comes to name a missing user. */
  lemma UnfollowKeepsNoDangling(users: map<Id, User>, id: Id, unFollowerId: Id)
    requires NoDangling(users)
    ensures NoDangling(UnfollowWrites(users, id, unFollowerId))
  {
    var r := UnfollowWrites(users, id, unFollowerId);
    forall a, x | a in r && x in r[a].followers ensures x in r {
      if a == id {
        WithoutSubset(users[a].followers, unFollowerId, x);
      }
    }
    forall a, x | a in r && x in r[a].following ensures x in r {
      if a == unFollowerId && id in users {
        WithoutSubset(users[a].following, id, x);
      }
    }
  }

  /** `follow` has no duplicate guard: following twice records the edge twice on both sides. */
  lemma FollowTwiceRecordsTwice(users: map<Id, User>, id: Id, followerId: Id)
    requires id in users && followerId in users
    ensures var twice := FollowWrites(FollowWrites(users, id, followerId), id, followerId);
      && twice[id].followers == users[id].followers + [followerId, followerId]
      && twice[followerId].following == users[followerId].following + [id, id]
  {
    var once := FollowWrites(users, id, followerId);
    assert once[id].followers + [followerId] == users[id].followers + [followerId, followerId];
    assert once[followerId].following + [id] == users[followerId].following + [id, id];
  }

  /** Nothing stops a user from following itself: the edge lands in its own lists. */
  lemma SelfFollowIsRecorded(users: map<Id, User>, id: Id)
    requires id in users
    ensures id in FollowWrites(users, id, id)[id].followers
    ensures id in FollowWrites(users, id, id)[id].following
  {
    var r := FollowWrites(users, id, id);
    assert r[id].followers[|r[id].followers| - 1] == id;
    assert r[id].following[|r[id].following| - 1] == id;
  }

  /** `unfollow` is idempotent. */
  lemma UnfollowIdempotent(users: map<Id, User>, id: Id, unFollowerId: Id)
    ensures var once := UnfollowWrites(users, id, unFollowerId);
      UnfollowWrites(once, id, unFollowerId) == once
  {
    var once := UnfollowWrites(users, id, unFollowerId);
    var twice := UnfollowWrites(once, id, unFollowerId);
    forall x | x in users ensures twice[x] == once[x] {
      if x == id {
        WithoutAbsent(once[x].followers, unFollowerId);
      }
      if x == unFollowerId && id in users {
        WithoutAbsent(once[x].following, id);
      }
    }
  }

  /** `follow` then `unfollow` of a pair with no edge yet gives back the table it started from. */
  lemma FollowThenUnfollowRestores(users: map<Id, User>, id: Id, followerId: Id)
    requires id in users ==> followerId !in users[id].followers
    requires followerId in users ==> id !in users[followerId].following
    ensures UnfollowWrites(FollowWrites(users, id, followerId), id, followerId) == users
  {
    var followed := FollowWrites(users, id, followerId);
    var back := UnfollowWrites(followed, id, followerId);
    forall x | x in users ensures back[x] == users[x] {
      if x == id {
        WithoutAppend(users[x].followers, [followerId], followerId);
        WithoutAbsent(users[x].followers, followerId);
      }
      if x == followerId && id in users {
        WithoutAppend(users[x].following, [id], id);
        WithoutAbsent(users[x].following, id);
      }
    }
  }
}
