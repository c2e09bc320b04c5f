/** The people page (app/routes/_landing/users/_index/_layout.tsx): the follow/unfollow action,
    which also opens the conversation of a new pair, and the loader that suggests people to
    follow. */
module UsersIndexRoute {
  import opened ResultServer
  import opened Db
  import opened Http
  import opened UserServer
  import opened ConversationServer
  import opened AuthServer

  /** The two shapes of `FriendActionSchema`. */
  datatype FriendRequest = FollowRequest(userId: Id) | UnfollowRequest(userId: Id)

  const AlreadyFollowed := "Already followed this user"

  /** `FriendActionSchema.safeParse`: a `type` of "follow" or "unfollow" and a string `userId`;
      other fields are ignored. */
  function ParseFriendRequest(fields: FormData): (r: Option<FriendRequest>)
    ensures r.Some? <==> IsText(fields, "userId") && "type" in fields &&
                         (fields["type"] == Text("follow") || fields["type"] == Text("unfollow"))
    ensures r.Some? ==> r.value.userId == fields["userId"].text
    ensures r.Some? ==> (r.value.FollowRequest? <==> fields["type"] == Text("follow"))
  {
    if !IsText(fields, "userId") || "type" !in fields then None
    else if fields["type"] == Text("follow") then Some(FollowRequest(fields["userId"].text))
    else if fields["type"] == Text("unfollow") then Some(UnfollowRequest(fields["userId"].text))
    else None
  }

  /** The status of the conversation a follow opens: NORMAL when the followed user is already
      among the caller's followers, REQUEST otherwise. */
  function OpeningStatus(callerFollowers: seq<Id>, userId: Id): ChatStatus
  {
    if userId in callerFollowers then NORMAL else REQUEST
  }

  /** The follow branch of `action` for the signed-in `id`, whose lists are `following` and
      `followers`: refuses a target already on `following`; otherwise opens the pair's
      conversation if it has none, then records the follow, which throws on a missing target. */
  method FollowBranch(db: Db, id: Id, following: seq<Id>, followers: seq<Id>, userId: Id,
                      fields: FormData, now: int)
    returns (r: Response<Result<(), FormError>>)
    modifies db
    ensures userId in following ==>
      r == Json(Err(FormError(fields, false, Some(AlreadyFollowed)))) && unchanged(db)
    ensures userId !in following ==>
      && db.users == FollowWrites(old(db.users), userId, id)
      && db.messages == old(db.messages)
      && (SharedConversationExists(old(db.conversations), id, userId) ==>
            db.conversations == old(db.conversations))
      && (!SharedConversationExists(old(db.conversations), id, userId) ==>
            exists cid :: cid !in old(db.conversations) &&
              db.conversations == old(db.conversations)[cid := Conversation(
                [id, userId], NORMAL_CHAT, OpeningStatus(followers, userId), now)])
      && r == (if userId in old(db.users) && id in old(db.users) then Json(Ok(())) else Thrown(RecordNotFound))
    ensures Symmetric(old(db.users)) ==> Symmetric(db.users)
    ensures id in old(db.users) && NoDangling(old(db.users)) ==> NoDangling(db.users)
    ensures PairUnique(old(db.conversations)) ==> PairUnique(db.conversations)
  {
    if userId in following {
      return Json(Err(FormError(fields, false, Some(AlreadyFollowed))));
    }
    var conversationExists := IsConversationAlreadyExist(db, id, userId);
    if !conversationExists {
      ghost var before := db.conversations;
      var cid, c := CreateConversation(db, [id, userId], OpeningStatus(followers, userId), now);
      if PairUnique(before) {
        GuardedCreateKeepsPairUnique(before, cid, c, id, userId);
      }
    }
    if Symmetric(db.users) {
      FollowKeepsSymmetric(db.users, userId, id);
    }
    if id in db.users && NoDangling(db.users) {
      FollowKeepsNoDangling(db.users, userId, id);
    }
    var followed := Follow(db, userId, id);
    r := if followed.Ok? then Json(Ok(())) else Thrown(followed.error);
  }

  /** The unfollow branch of `action`: removes the edge, throwing on a missing target. */
  method UnfollowBranch(db: Db, id: Id, userId: Id) returns (r: Response<Result<(), FormError>>)
    modifies db
    ensures db.users == UnfollowWrites(old(db.users), userId, id)
    ensures db.conversations == old(db.conversations) && db.messages == old(db.messages)
    ensures r == (if userId in old(db.users) && id in old(db.users) then Json(Ok(())) else Thrown(RecordNotFound))
    ensures Symmetric(old(db.users)) ==> Symmetric(db.users)
    ensures NoDangling(old(db.users)) ==> NoDangling(db.users)
  {
    if Symmetric(db.users) {
      UnfollowKeepsSymmetric(db.users, userId, id);
    }
    if NoDangling(db.users) {
      UnfollowKeepsNoDangling(db.users, userId, id);
    }
    var unfollowed := Unfollow(db, userId, id);
    r := if unfollowed.Ok? then Json(Ok(())) else Thrown(unfollowed.error);
  }

  /** `action`: authenticates, parses the payload, and then either refuses a follow of someone
      the caller already follows, or opens the pair's conversation if it has none and records
      the follow, or removes the follow. A missing target makes the follow or unfollow throw. */
  method Action(db: Db, session: Option<Id>, fields: FormData, now: int)
    returns (r: Response<Result<(), FormError>>)
    modifies db
    ensures !SignedIn(old(db.users), session) ==> r == Redirect(LoginPath) && unchanged(db)
    ensures SignedIn(old(db.users), session) && ParseFriendRequest(fields).None? ==>
      r == Json(Err(FormError(fields, true, None))) && unchanged(db)
    ensures SignedIn(old(db.users), session) && ParseFriendRequest(fields).Some? ==>
      var caller := session.value;
      var request := ParseFriendRequest(fields).value;
      var userId := request.userId;
      match request
      case FollowRequest(_) =>
        if userId in old(db.users)[caller].following then
          r == Json(Err(FormError(fields, false, Some(AlreadyFollowed)))) && unchanged(db)
        else
          && db.users == FollowWrites(old(db.users), userId, caller)
          && db.messages == old(db.messages)
          && (SharedConversationExists(old(db.conversations), caller, userId) ==>
                db.conversations == old(db.conversations))
          && (!SharedConversationExists(old(db.conversations), caller, userId) ==>
                exists cid :: cid !in old(db.conversations) &&
                  db.conversations == old(db.conversations)[cid := Conversation(
                    [caller, userId], NORMAL_CHAT, OpeningStatus(old(db.users)[caller].followers, userId), now)])
          && r == (if userId in old(db.users) then Json(Ok(())) else Thrown(RecordNotFound))
      case UnfollowRequest(_) =>
        && db.users == UnfollowWrites(old(db.users), userId, caller)
        && db.conversations == old(db.conversations) && db.messages == old(db.messages)
        && r == (if userId in old(db.users) then Json(Ok(())) else Thrown(RecordNotFound))
    ensures Symmetric(old(db.users)) ==> Symmetric(db.users)
    ensures NoDangling(old(db.users)) ==> NoDangling(db.users)
    ensures PairUnique(old(db.conversations)) ==> PairUnique(db.conversations)
  {
    var users := db.users;
    var me := Authenticate(session, userId => GetUserById(users, userId));
    AuthenticateByIdSucceeds(users, session);
    if me.Err? {
      return Redirect(me.error);
    }
    var id, following, followers := me.data.id, me.data.following, me.data.followers;

    var parseResult := ParseFriendRequest(fields);
    if parseResult.None? {
      return Json(Err(FormError(fields, true, None)));
    }
    var userId := parseResult.value.userId;

    if parseResult.value.FollowRequest? {
      r := FollowBranch(db, id, following, followers, userId, fields, now);
    } else {
      r := UnfollowBranch(db, id, userId);
    }
  }

  // ---------------------------------------------------------------- loader

  /** What the loader hands the page. */
  datatype PeoplePage = PeoplePage(friends: seq<UserInfo>, followers: seq<UserInfo>,
                                   following: seq<UserInfo>, currentUserId: Id)

  /** The loader's filter: the users whose own lists show no edge with `id` either way. */
  function Suggestions(users: seq<UserInfo>, id: Id): (r: seq<UserInfo>)
    ensures forall u :: u in r <==> u in users && id !in u.followers && id !in u.following
    ensures |r| <= |users|
  {
    if users == [] then []
    else
      assert users == [users[0]] + users[1..];
      var rest := Suggestions(users[1..], id);
      if id !in users[0].followers && id !in users[0].following then [users[0]] + rest else rest
  }

  /** The filter keeps the order of its input: the suggestions of a concatenation are the
      concatenation of the suggestions. */
  lemma {:induction false} SuggestionsAppend(a: seq<UserInfo>, b: seq<UserInfo>, id: Id)
    ensures Suggestions(a + b, id) == Suggestions(a, id) + Suggestions(b, id)
    decreases |a|
  {
    if a == [] {
      assert a + b == b;
    } else {
      assert (a + b)[0] == a[0];
      assert (a + b)[1..] == a[1..] + b;
      SuggestionsAppend(a[1..], b, id);
    }
  }

  /** No user appears twice. */
  predicate DistinctIds(r: seq<UserInfo>)
  {
    forall i, j :: 0 <= i < j < |r| ==> r[i].id != r[j].id
  }

  /** The filter only drops entries, so a list without repeats gives suggestions without
      repeats. */
  lemma {:induction false} SuggestionsKeepDistinct(users: seq<UserInfo>, id: Id)
    requires DistinctIds(users)
    ensures DistinctIds(Suggestions(users, id))
    decreases |users|
  {
    if users != [] {
      var tail := users[1..];
      assert DistinctIds(tail) by {
        forall i, j | 0 <= i < j < |tail| ensures tail[i].id != tail[j].id {
          assert tail[i] == users[i + 1] && tail[j] == users[j + 1];
        }
      }
      SuggestionsKeepDistinct(tail, id);
      var rest := Suggestions(tail, id);
      forall k | 0 <= k < |rest| ensures users[0].id != rest[k].id {
        assert rest[k] in tail;
        var m :| 0 <= m < |tail| && tail[m] == rest[k];
        assert tail[m] == users[m + 1];
      }
    }
  }

  /** `x` is a user other than `id` with no follow edge to or from `id` on its own lists. */
  ghost predicate Suggested(users: map<Id, User>, id: Id, x: Id)
  {
    x in users && x != id && id !in users[x].followers && id !in users[x].following
  }

  /** While the two copies of every edge agree, a suggestion is exactly a user the caller
      neither follows nor is followed by. */
  lemma SuggestedMeansNoEdge(users: map<Id, User>, id: Id, x: Id)
    requires Symmetric(users) && id in users && x in users && x != id
    ensures Suggested(users, id, x) <==> x !in users[id].following && x !in users[id].followers
  {
    assert multiset(users[id].following)[x] == multiset(users[x].followers)[id];
    assert multiset(users[x].following)[id] == multiset(users[id].followers)[x];
  }

  /** `loader`: the suggestions, and the caller's followers and followings as users. */
  method Loader(db: Db, session: Option<Id>) returns (r: Response<PeoplePage>)
    ensures !SignedIn(db.users, session) ==> r == Redirect(LoginPath)
    ensures SignedIn(db.users, session) ==>
      && r.Json? && r.body.currentUserId == session.value
      && (forall i :: 0 <= i < |r.body.friends| ==>
            r.body.friends[i].id in db.users && r.body.friends[i] == Info(r.body.friends[i].id, db.users[r.body.friends[i].id]))
      && DistinctIds(r.body.friends)
      && (forall x :: Names(r.body.friends, x) <==> Suggested(db.users, session.value, x))
      && r.body.followers == GetUserByList(db.users, db.users[session.value].followers)
      && r.body.following == GetUserByList(db.users, db.users[session.value].following)
  {
    var users := db.users;
    var me := Authenticate(session, userId => GetUserById(users, userId));
    AuthenticateByIdSucceeds(users, session);
    if me.Err? {
      return Redirect(me.error);
    }
    var id := me.data.id;
    var all := GetAllFriends(db, id);
    var filteredFriends := Suggestions(all, id);
    SuggestionsKeepDistinct(all, id);
    forall x ensures Names(filteredFriends, x) <==> Suggested(db.users, id, x) {
      if Names(filteredFriends, x) {
        var i :| 0 <= i < |filteredFriends| && filteredFriends[i].id == x;
        assert filteredFriends[i] in all;
      }
      if Suggested(db.users, id, x) {
        assert Names(all, x);
        var i :| 0 <= i < |all| && all[i].id == x;
        assert all[i] in filteredFriends;
        var j :| 0 <= j < |filteredFriends| && filteredFriends[j] == all[i];
      }
    }
    var followedUsers := GetUserByList(db.users, me.data.followers);
    var followingUsers := GetUserByList(db.users, me.data.following);
    r := Json(PeoplePage(filteredFriends, followedUsers, followingUsers, id));
  }
}
