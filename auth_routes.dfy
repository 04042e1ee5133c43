/**
 * `POST /api/auth/register` and `POST /api/auth/login`.
 *
 * bcrypt's `hash(password, salt)` and `compare(password, hash)` and JWT's
 * `sign(payload)` are parameters; the salt from `genSalt`, the new user's
 * ObjectId and the clock reading are parameters too.
 */
module AuthRoutes {
  import opened Common
  import opened Text
  import opened Collection
  import opened UserModel
  import opened Store

  const MissingFields := "Please provide all required fields"
  const ShortPassword := "Password must be at least 6 characters"
  const UserExists := "User already exists"
  const UsernameTaken := "Username already taken"
  const MissingCredentials := "Please provide email and password"
  const InvalidCredentials := "Invalid Credentials"
  /** The two auth routes spell their 500 message with a lower-case "e". */
  const AuthServerError := "Server error"

  /** The JWT payloads: register signs id, username and e-mail; login adds the admin and ban flags. */
  datatype Claims =
    | RegisterClaims(id: Id, username: string, email: string)
    | LoginClaims(id: Id, username: string, email: string, isAdmin: bool, isBanned: bool)

  /** The user part of the register answer. */
  datatype Account = Account(id: Id, username: string, email: string)

  datatype Registered = Registered(token: string, user: Account)

  /** The user part of the login answer: the profile without the player list and the ban bookkeeping. */
  datatype UserData = UserData(
    id: Id,
    username: string,
    email: string,
    isAdmin: bool,
    isBanned: bool,
    banReason: string,
    joinDate: Time,
    totalPlayers: int,
    avatar: string,
    bio: string,
    isOnline: bool,
    lastSeen: Option<Time>,
    profileVisibility: string,
    showOnlineStatus: bool,
    allowInvites: bool,
    preferredConsole: string,
    timezone: string)

  datatype LoggedIn = LoggedIn(token: string, user: UserData)

  /** The three register fields are all present and non-empty. */
  predicate AllGiven(username: Option<string>, email: Option<string>, password: Option<string>)
  {
    Truthy(username) && Truthy(email) && Truthy(password)
  }

  /**
   * Register: the four 400 checks in their order (a missing field, a short
   * password, a known e-mail, a known username), then the insertion of the
   * new user with the hashed password. A document that fails the schema
   * validators, or an id that is already taken, ends in 500 with nothing
   * stored.
   */
  method Register(db: Db, username: Option<string>, email: Option<string>, password: Option<string>,
                  newId: Id, salt: string, now: Time,
                  hash: (string, string) -> string, sign: Claims -> string)
    returns (r: Response<Registered>)
    requires db.Valid()
    modifies db
    ensures db.Valid()
    ensures db.players == old(db.players) && db.conversations == old(db.conversations)
    ensures db.messages == old(db.messages) && db.clock == old(db.clock)
    ensures !AllGiven(username, email, password) ==> r == Err(400, MissingFields)
    ensures AllGiven(username, email, password) && |password.value| < 6 ==> r == Err(400, ShortPassword)
    ensures (AllGiven(username, email, password) && |password.value| >= 6
             && FindByEmail(old(db.users), email.value).Some?) ==> r == Err(400, UserExists)
    ensures (AllGiven(username, email, password) && |password.value| >= 6
             && FindByEmail(old(db.users), email.value).None?
             && FindByUsername(old(db.users), username.value).Some?) ==> r == Err(400, UsernameTaken)
    ensures r.Ok? <==>
            && AllGiven(username, email, password) && |password.value| >= 6
            && FindByEmail(old(db.users), email.value).None?
            && FindByUsername(old(db.users), username.value).None?
            && ValidUser(NewUser(username.value, email.value, hash(password.value, salt), now))
            && Find(old(db.users), newId).None?
    ensures r.Ok? ==>
            && db.users == old(db.users) + [Doc(newId, NewUser(username.value, email.value, hash(password.value, salt), now))]
            && r.status == 200
            && r.body.user == Account(newId, Trim(username.value), NormalizeEmail(email.value))
            && r.body.token == sign(RegisterClaims(newId, Trim(username.value), NormalizeEmail(email.value)))
    ensures !r.Ok? ==> db.users == old(db.users)
    ensures r.Err? && r.status != 400 ==> r == Err(500, AuthServerError)
    ensures !r.Banned?
  {
    if !AllGiven(username, email, password) {
      return Err(400, MissingFields);
    }
    if |password.value| < 6 {
      return Err(400, ShortPassword);
    }
    if FindByEmail(db.users, email.value).Some? {
      return Err(400, UserExists);
    }
    if FindByUsername(db.users, username.value).Some? {
      return Err(400, UsernameTaken);
    }
    var user := NewUser(username.value, email.value, password.value, now);
    user := user.(password := hash(password.value, salt));
    assert user == NewUser(username.value, email.value, hash(password.value, salt), now);
    if !ValidUser(user) || Find(db.users, newId).Some? {
      return Err(500, AuthServerError);
    }
    db.InsertUser(newId, user);
    var account := Account(newId, user.profile.username, user.profile.email);
    r := Ok(200, Registered(sign(RegisterClaims(account.id, account.username, account.email)), account));
  }

  /** The fields of a stored user that the login answer carries. */
  function UserDataOf(d: Doc<User>): (v: UserData)
    ensures v.id == d.id && v.username == d.body.profile.username && v.email == d.body.profile.email
    ensures v.isAdmin == d.body.profile.isAdmin && v.isBanned == d.body.profile.isBanned
  {
    var p := d.body.profile;
    UserData(d.id, p.username, p.email, p.isAdmin, p.isBanned, p.banReason, p.joinDate, p.totalPlayers,
             p.avatar, p.bio, p.isOnline, p.lastSeen, p.profileVisibility, p.showOnlineStatus,
             p.allowInvites, p.preferredConsole, p.timezone)
  }

  /**
   * Login: 400 without both fields, 400 "Invalid Credentials" for an unknown
   * e-mail, 403 with the ban reason for a banned user, 400 "Invalid
   * Credentials" for a wrong password, and otherwise a token for the user.
   */
  function Login(users: seq<Doc<User>>, email: Option<string>, password: Option<string>,
                 compare: (string, string) -> bool, sign: Claims -> string): (r: Response<LoggedIn>)
    ensures !(Truthy(email) && Truthy(password)) ==> r == Err(400, MissingCredentials)
    ensures r.Ok? ==>
              && Truthy(email) && Truthy(password) && FindByEmail(users, email.value).Some?
              && var u := users[FindByEmail(users, email.value).value];
              && !u.body.profile.isBanned && compare(password.value, u.body.password)
              && r.status == 200 && r.body.user == UserDataOf(u)
    ensures r.Banned? ==>
              && Truthy(email) && Truthy(password) && FindByEmail(users, email.value).Some?
              && var u := users[FindByEmail(users, email.value).value];
              && u.body.profile.isBanned && r.banReason == u.body.profile.banReason
    ensures (&& Truthy(email) && Truthy(password) && FindByEmail(users, email.value).Some?
             && var u := users[FindByEmail(users, email.value).value];
             && !u.body.profile.isBanned && compare(password.value, u.body.password)) ==>
              && r.Ok? && r.body.user == UserDataOf(users[FindByEmail(users, email.value).value])
    ensures r.Err? ==> r.status == 400
  {
    if !(Truthy(email) && Truthy(password)) then Err(400, MissingCredentials)
    else match FindByEmail(users, email.value)
      case None => Err(400, InvalidCredentials)
      case Some(k) =>
        var u := users[k];
        if u.body.profile.isBanned then Banned(u.body.profile.banReason)
        else if !compare(password.value, u.body.password) then Err(400, InvalidCredentials)
        else
          var p := u.body.profile;
          Ok(200, LoggedIn(sign(LoginClaims(u.id, p.username, p.email, p.isAdmin, p.isBanned)), UserDataOf(u)))
  }

  /** An unknown e-mail and a wrong password get the very same answer, so the answer does not reveal which accounts exist. */
  lemma LoginHidesWhichCheckFailed(users: seq<Doc<User>>, email: string, password: string,
                                   compare: (string, string) -> bool, sign: Claims -> string)
    requires email != "" && password != ""
    requires FindByEmail(users, email).None?
             || (var k := FindByEmail(users, email).value;
                 !users[k].body.profile.isBanned && !compare(password, users[k].body.password))
    ensures Login(users, Some(email), Some(password), compare, sign) == Err(400, InvalidCredentials)
  {
  }

  /** A banned user gets 403 whatever the password and whatever `compare` would say: the password is never checked. */
  lemma LoginBanCheckPrecedesPassword(users: seq<Doc<User>>, email: string, p1: string, p2: string,
                                      c1: (string, string) -> bool, c2: (string, string) -> bool,
                                      sign: Claims -> string)
    requires email != "" && p1 != "" && p2 != ""
    requires FindByEmail(users, email).Some? && users[FindByEmail(users, email).value].body.profile.isBanned
    ensures Login(users, Some(email), Some(p1), c1, sign) == Login(users, Some(email), Some(p2), c2, sign)
    ensures Login(users, Some(email), Some(p1), c1, sign).Banned?
  {
  }

  /**
   * Register followed by login: once a user is stored by register, logging in
   * with the same e-mail and password (when `compare` accepts the password
   * against its own hash) succeeds for that user.
   */
  lemma {:induction false} LoginAfterRegister(users: seq<Doc<User>>, newId: Id, username: string, email: string,
                                              password: string, salt: string, now: Time,
                                              hash: (string, string) -> string,
                                              compare: (string, string) -> bool, sign: Claims -> string)
    requires email != "" && password != ""
    requires FindByEmail(users, email).None?
    requires compare(password, hash(password, salt))
    ensures var r := Login(users + [Doc(newId, NewUser(username, email, hash(password, salt), now))],
                           Some(email), Some(password), compare, sign);
            r.Ok? && r.body.user.id == newId
  {
    var u := NewUser(username, email, hash(password, salt), now);
    var us := users + [Doc(newId, u)];
    FindByEmailAppended(users, Doc(newId, u), email);
    assert us[|users|] == Doc(newId, u);
    var r := Login(us, Some(email), Some(password), compare, sign);
    assert r.Ok? && r.body.user == UserDataOf(us[|users|]);
  }
}
