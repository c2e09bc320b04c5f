/** Registration, login and the session check (app/model/auth.server.ts). The session is the
    single `userId` slot the cookie carries; password hashing and comparison are parameters. */
module AuthServer {
  import opened ResultServer
  import opened Db
  import opened UserServer

  /** What the session cookie stores. */
  datatype Session = Session(userId: Id)

  const UserExists := "User with this email already exists"
  const InvalidCredentials := "Invalid email or passwords"
  const LoginPath := "/login"

  /** `register`: refuses an email some user already has, and otherwise creates the user and
      starts a session for it. */
  method Register(db: Db, name: string, email: string, password: string, hash: string -> string)
    returns (r: Result<Session, string>)
    modifies db
    ensures EmailTaken(old(db.users), email) ==> r == Err(UserExists) && db.users == old(db.users)
    ensures !EmailTaken(old(db.users), email) ==>
      && r.Ok? && r.data.userId !in old(db.users)
      && db.users == old(db.users)[r.data.userId := User(email, name, hash(password), [], [])]
    ensures UniqueEmails(old(db.users)) ==> UniqueEmails(db.users)
    ensures Symmetric(old(db.users)) && NoDangling(old(db.users)) ==>
      Symmetric(db.users) && NoDangling(db.users)
    ensures db.conversations == old(db.conversations) && db.messages == old(db.messages)
  {
    var isUserExist := GetUserByEmail(db, email);
    if isUserExist.Some? {
      return Err(UserExists);
    }
    var created := CreateUser(db, name, email, password, hash);
    if UniqueEmails(old(db.users)) {
      AddUserKeepsEmailsUnique(old(db.users), created.id, db.users[created.id]);
    }
    if Symmetric(old(db.users)) && NoDangling(old(db.users)) {
      AddUserKeepsConsistent(old(db.users), created.id, db.users[created.id]);
    }
    r := Ok(Session(created.id));
  }

  /** Some user with that email accepts that password. */
  ghost predicate PasswordAccepted(users: map<Id, User>, email: string, password: string,
                                   compare: (string, string) -> bool)
  {
    exists id :: id in users && users[id].email == email && compare(password, users[id].passwordHash)
  }

  /** `login`: starts a session for the user with that email when the password matches its
      hash. An unknown email and a wrong password get the same error. */
  method Login(db: Db, email: string, password: string, compare: (string, string) -> bool)
    returns (r: Result<Session, string>)
    ensures r.Err? ==> r.error == InvalidCredentials
    ensures r.Ok? ==> r.data.userId in db.users && db.users[r.data.userId].email == email
                      && compare(password, db.users[r.data.userId].passwordHash)
    ensures !EmailTaken(db.users, email) ==> r.Err?
    ensures UniqueEmails(db.users) ==> (r.Ok? <==> PasswordAccepted(db.users, email, password, compare))
  {
    var user := GetUserForAuthentication(db, email);
    if user.None? {
      return Err(InvalidCredentials);
    }
    var isPasswordCorrect := compare(password, db.users[user.value].passwordHash);
    if !isPasswordCorrect {
      return Err(InvalidCredentials);
    }
    r := Ok(Session(user.value));
  }

  /** `authenticate`: the user the session's id resolves to through `getUser`; otherwise the
      redirect to the login page that the handler throws. */
  function Authenticate<T>(sessionUserId: Option<Id>, getUser: Id -> Option<T>): (r: Result<T, string>)
    ensures r.Ok? <==> sessionUserId.Some? && getUser(sessionUserId.value).Some?
    ensures r.Ok? ==> r.data == getUser(sessionUserId.value).value
    ensures r.Err? ==> r.error == LoginPath
  {
    match sessionUserId
    case None => Err(LoginPath)
    case Some(userId) =>
      match getUser(userId)
      case None => Err(LoginPath)
      case Some(user) => Ok(user)
  }

  /** The session names a user. */
  ghost predicate SignedIn(users: map<Id, User>, session: Option<Id>)
  {
    session.Some? && session.value in users
  }

  /** Every route authenticates with `getUserById`: it succeeds exactly for a session whose id
      names a user, and yields that user. */
  lemma AuthenticateByIdSucceeds(users: map<Id, User>, sessionUserId: Option<Id>)
    ensures var r := Authenticate(sessionUserId, id => GetUserById(users, id));
      && (r.Ok? <==> sessionUserId.Some? && sessionUserId.value in users)
      && (r.Ok? ==> r.data == Info(sessionUserId.value, users[sessionUserId.value]))
  {
  }
}
