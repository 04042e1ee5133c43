/**
 * `GET /api/users/me`, `PUT /api/users/me` and `GET /api/users/:id`.
 *
 * `me` is the user document the `auth` middleware loaded into `req.user`.
 */
module UserRoutes {
  import opened Common
  import opened Text
  import opened Collection
  import opened UserModel
  import opened Store

  const UserNotFound := "User not found"
  const EmailInUse := "Email already in use by another account"
  const UsernameTaken := "Username already taken"
  const InvalidUserId := "Invalid user ID"

  /**
   * The body of `PUT /me`. A field the client leaves out is None; `isOnline`,
   * `showOnlineStatus` and `allowInvites` are None unless the client sent a
   * boolean.
   */
  datatype ProfileInput = ProfileInput(
    username: Option<string>,
    email: Option<string>,
    preferredConsole: Option<string>,
    timezone: Option<string>,
    bio: Option<string>,
    isOnline: Option<bool>,
    profileVisibility: Option<string>,
    showOnlineStatus: Option<bool>,
    allowInvites: Option<bool>)

  /** The `userFields` object handed to `$set`: None for a key it does not hold; `lastSeen` Some(None) is `null`. */
  datatype UserFields = UserFields(
    username: Option<string>,
    email: Option<string>,
    preferredConsole: Option<string>,
    timezone: Option<string>,
    bio: Option<string>,
    isOnline: Option<bool>,
    lastSeen: Option<Option<Time>>,
    profileVisibility: Option<string>,
    showOnlineStatus: Option<bool>,
    allowInvites: Option<bool>)

  /**
   * Builds `userFields` key by key: `username`, `email` and
   * `profileVisibility` only when truthy; `preferredConsole`, `timezone` and
   * `bio` when given; `isOnline` only as a boolean, together with `lastSeen`
   * (null when going online, `now` when going offline); the two flags only as
   * booleans.
   */
  method BuildUserFields(input: ProfileInput, now: Time) returns (f: UserFields)
    ensures f.username.Some? <==> Truthy(input.username)
    ensures f.email.Some? <==> Truthy(input.email)
    ensures f.profileVisibility.Some? <==> Truthy(input.profileVisibility)
    ensures f.username.Some? ==> f.username == input.username
    ensures f.email.Some? ==> f.email == input.email
    ensures f.profileVisibility.Some? ==> f.profileVisibility == input.profileVisibility
    ensures f.preferredConsole == input.preferredConsole && f.timezone == input.timezone && f.bio == input.bio
    ensures f.isOnline == input.isOnline
    ensures f.lastSeen.Some? <==> f.isOnline.Some?
    ensures f.isOnline == Some(true) ==> f.lastSeen == Some(None)
    ensures f.isOnline == Some(false) ==> f.lastSeen == Some(Some(now))
    ensures f.showOnlineStatus == input.showOnlineStatus && f.allowInvites == input.allowInvites
  {
    var username := if Truthy(input.username) then input.username else None;
    var email := if Truthy(input.email) then input.email else None;
    var preferredConsole := if input.preferredConsole.Some? then input.preferredConsole else None;
    var timezone := if input.timezone.Some? then input.timezone else None;
    var bio := if input.bio.Some? then input.bio else None;
    var isOnline := if input.isOnline.Some? then input.isOnline else None;
    var lastSeen := if input.isOnline.Some? then Some(if input.isOnline.value then None else Some(now)) else None;
    var profileVisibility := if Truthy(input.profileVisibility) then input.profileVisibility else None;
    var showOnlineStatus := if input.showOnlineStatus.Some? then input.showOnlineStatus else None;
    var allowInvites := if input.allowInvites.Some? then input.allowInvites else None;
    f := UserFields(username, email, preferredConsole, timezone, bio, isOnline, lastSeen,
                    profileVisibility, showOnlineStatus, allowInvites);
  }

  /**
   * `$set: userFields` on a stored profile: each key present overwrites its
   * field, through the `trim` and `lowercase` setters where the schema has them.
   */
  function ApplyUserFields(p: Profile, f: UserFields): (q: Profile)
    ensures q.username == (if f.username.Some? then Trim(f.username.value) else p.username)
    ensures q.email == (if f.email.Some? then NormalizeEmail(f.email.value) else p.email)
    ensures f.isOnline.None? && f.lastSeen.None? ==> q.isOnline == p.isOnline && q.lastSeen == p.lastSeen
    ensures q.joinDate == p.joinDate && q.players == p.players && q.totalPlayers == p.totalPlayers
    ensures q.avatar == p.avatar && q.isAdmin == p.isAdmin && q.isBanned == p.isBanned
    ensures q.banReason == p.banReason && q.bannedBy == p.bannedBy && q.banDate == p.banDate
  {
    Profile(
      if f.username.Some? then Trim(f.username.value) else p.username,
      if f.email.Some? then NormalizeEmail(f.email.value) else p.email,
      p.joinDate, p.players, p.totalPlayers, p.avatar,
      Or(f.preferredConsole, p.preferredConsole),
      Or(f.timezone, p.timezone),
      Or(f.bio, p.bio),
      Or(f.isOnline, p.isOnline),
      Or(f.lastSeen, p.lastSeen),
      Or(f.profileVisibility, p.profileVisibility),
      Or(f.showOnlineStatus, p.showOnlineStatus),
      Or(f.allowInvites, p.allowInvites),
      p.isAdmin, p.isBanned, p.banReason, p.bannedBy, p.banDate)
  }

  /** Sending the same update twice stores the same profile as sending it once. */
  lemma ApplyUserFieldsIdempotent(p: Profile, f: UserFields)
    ensures ApplyUserFields(ApplyUserFields(p, f), f) == ApplyUserFields(p, f)
  {
    var q := ApplyUserFields(p, f);
    var q2 := ApplyUserFields(q, f);
    assert q2.username == q.username by {
      if f.username.Some? {
        TrimIdempotent(f.username.value);
      }
    }
    assert q2.email == q.email by {
      if f.email.Some? {
        NormalizeEmailIdempotent(f.email.value);
      }
    }
  }

  /** An update that holds no key leaves the profile as it is. */
  lemma ApplyNoFields(p: Profile)
    ensures ApplyUserFields(p, UserFields(None, None, None, None, None, None, None, None, None, None)) == p
  {
  }

  /**
   * What `PUT /me` stores for the profile `p` when it succeeds, stated
   * directly in terms of the request body. Nothing the request cannot name
   * changes: the join date, the players, the avatar, the admin flag and the ban
   * bookkeeping stay as they were.
   */
  function Requested(p: Profile, input: ProfileInput, now: Time): (q: Profile)
    ensures q.joinDate == p.joinDate && q.players == p.players && q.totalPlayers == p.totalPlayers
    ensures q.avatar == p.avatar && q.isAdmin == p.isAdmin && q.isBanned == p.isBanned
    ensures q.banReason == p.banReason && q.bannedBy == p.bannedBy && q.banDate == p.banDate
    ensures q.isOnline ==> q.lastSeen.None? || q.lastSeen == p.lastSeen
  {
    Profile(
      username := if Truthy(input.username) then Trim(input.username.value) else p.username,
      email := if Truthy(input.email) then NormalizeEmail(input.email.value) else p.email,
      joinDate := p.joinDate,
      players := p.players,
      totalPlayers := p.totalPlayers,
      avatar := p.avatar,
      preferredConsole := Or(input.preferredConsole, p.preferredConsole),
      timezone := Or(input.timezone, p.timezone),
      bio := Or(input.bio, p.bio),
      isOnline := Or(input.isOnline, p.isOnline),
      lastSeen := match input.isOnline
                  case None => p.lastSeen
                  case Some(b) => if b then None else Some(now),
      profileVisibility := if Truthy(input.profileVisibility) then input.profileVisibility.value else p.profileVisibility,
      showOnlineStatus := Or(input.showOnlineStatus, p.showOnlineStatus),
      allowInvites := Or(input.allowInvites, p.allowInvites),
      isAdmin := p.isAdmin,
      isBanned := p.isBanned,
      banReason := p.banReason,
      bannedBy := p.bannedBy,
      banDate := p.banDate)
  }

  /** `$set` of the fields the builder picked yields exactly the requested profile. */
  lemma BuiltFieldsGiveRequested(p: Profile, input: ProfileInput, now: Time, f: UserFields)
    requires f.username.Some? <==> Truthy(input.username)
    requires f.email.Some? <==> Truthy(input.email)
    requires f.profileVisibility.Some? <==> Truthy(input.profileVisibility)
    requires f.username.Some? ==> f.username == input.username
    requires f.email.Some? ==> f.email == input.email
    requires f.profileVisibility.Some? ==> f.profileVisibility == input.profileVisibility
    requires f.preferredConsole == input.preferredConsole && f.timezone == input.timezone && f.bio == input.bio
    requires f.isOnline == input.isOnline
    requires f.lastSeen.Some? <==> f.isOnline.Some?
    requires f.isOnline == Some(true) ==> f.lastSeen == Some(None)
    requires f.isOnline == Some(false) ==> f.lastSeen == Some(Some(now))
    requires f.showOnlineStatus == input.showOnlineStatus && f.allowInvites == input.allowInvites
    ensures ApplyUserFields(p, f) == Requested(p, input, now)
  {
  }

  /** The e-mail check of `PUT /me` fires: a new e-mail that another account holds. */
  predicate EmailClash(users: seq<Doc<User>>, me: Id, stored: Profile, input: ProfileInput)
  {
    && Truthy(input.email) && input.email.value != stored.email
    && var k := FindByEmail(users, input.email.value);
    && k.Some? && users[k.value].id != me
  }

  /** The username check of `PUT /me` fires: a new username that another account holds. */
  predicate UsernameClash(users: seq<Doc<User>>, me: Id, stored: Profile, input: ProfileInput)
  {
    && Truthy(input.username) && input.username.value != stored.username
    && var k := FindByUsername(users, input.username.value);
    && k.Some? && users[k.value].id != me
  }

  /**
   * The two explicit checks are enough for the unique indexes: when neither
   * fires, no other account holds the username or the e-mail the update
   * stores, so the duplicate-key answer (11000) cannot occur.
   */
  lemma ChecksLeaveAccountFree(users: seq<Doc<User>>, k: nat, input: ProfileInput, now: Time, pw: string)
    requires UsersOk(users) && k < |users|
    requires !EmailClash(users, users[k].id, users[k].body.profile, input)
    requires !UsernameClash(users, users[k].id, users[k].body.profile, input)
    ensures FreeFor(users, users[k].id, User(pw, Requested(users[k].body.profile, input, now)))
  {
    UsernameCheckLeavesFree(users, k, input, now);
    EmailCheckLeavesFree(users, k, input, now);
  }

  /** The username half of `ChecksLeaveAccountFree`. */
  lemma UsernameCheckLeavesFree(users: seq<Doc<User>>, k: nat, input: ProfileInput, now: Time)
    requires UsersOk(users) && k < |users|
    requires !UsernameClash(users, users[k].id, users[k].body.profile, input)
    ensures forall j :: 0 <= j < |users| && users[j].id != users[k].id ==>
              users[j].body.profile.username != Requested(users[k].body.profile, input, now).username
  {
    var p := users[k].body.profile;
    var q := Requested(p, input, now);
    assert StoredUserOk(users[k].body);
    if Truthy(input.username) {
      var n := input.username.value;
      if n == p.username {
        TrimFixesTrimmed(p.username);
      } else {
        var i := FindByUsername(users, n);
        if i.Some? {
          assert users[i.value].id == users[k].id;
          assert i.value == k;
        }
      }
    }
    forall j | 0 <= j < |users| && users[j].id != users[k].id
      ensures users[j].body.profile.username != q.username
    {
      assert j != k;
    }
  }

  /** The e-mail half of `ChecksLeaveAccountFree`. */
  lemma EmailCheckLeavesFree(users: seq<Doc<User>>, k: nat, input: ProfileInput, now: Time)
    requires UsersOk(users) && k < |users|
    requires !EmailClash(users, users[k].id, users[k].body.profile, input)
    ensures forall j :: 0 <= j < |users| && users[j].id != users[k].id ==>
              users[j].body.profile.email != Requested(users[k].body.profile, input, now).email
  {
    var p := users[k].body.profile;
    var q := Requested(p, input, now);
    assert StoredUserOk(users[k].body);
    if Truthy(input.email) {
      var e := input.email.value;
      if e == p.email {
        NormalizedEmailIff(p.email);
      } else {
        var i := FindByEmail(users, e);
        if i.Some? {
          assert users[i.value].id == users[k].id;
          assert i.value == k;
        }
      }
    }
    forall j | 0 <= j < |users| && users[j].id != users[k].id
      ensures users[j].body.profile.email != q.email
    {
      assert j != k;
    }
  }

  /**
   * The checks of `PUT /me`, before anything is written: 404 when the
   * caller's document is gone, 400 when a new e-mail or a new username is held
   * by another account (e-mail checked first), 500 when the updated profile
   * fails the validators, and otherwise 200 with the profile to store.
   */
  method CheckProfileUpdate(users: seq<Doc<User>>, me: Id, input: ProfileInput, now: Time)
    returns (r: Response<Profile>)
    ensures Find(users, me).None? ==> r == Err(404, UserNotFound)
    ensures Find(users, me).Some? ==>
              var stored := Find(users, me).value.body;
              && (EmailClash(users, me, stored.profile, input) ==> r == Err(400, EmailInUse))
              && ((!EmailClash(users, me, stored.profile, input)
                   && UsernameClash(users, me, stored.profile, input)) ==> r == Err(400, UsernameTaken))
              && (r.Ok? <==> && !EmailClash(users, me, stored.profile, input)
                             && !UsernameClash(users, me, stored.profile, input)
                             && ValidUser(User(stored.password, Requested(stored.profile, input, now))))
              && (r.Ok? ==> r == Ok(200, Requested(stored.profile, input, now)))
    ensures r.Err? ==> r.status in {400, 404, 500}
    ensures !r.Banned?
  {
    var f := BuildUserFields(input, now);
    var found := Find(users, me);
    if found.None? {
      return Err(404, UserNotFound);
    }
    var user := found.value;
    if Truthy(input.email) && input.email.value != user.body.profile.email {
      var e := FindByEmail(users, input.email.value);
      if e.Some? && users[e.value].id != me {
        assert EmailClash(users, me, user.body.profile, input);
        return Err(400, EmailInUse);
      }
    }
    assert !EmailClash(users, me, user.body.profile, input);
    if Truthy(input.username) && input.username.value != user.body.profile.username {
      var n := FindByUsername(users, input.username.value);
      if n.Some? && users[n.value].id != me {
        assert UsernameClash(users, me, user.body.profile, input);
        return Err(400, UsernameTaken);
      }
    }
    assert !UsernameClash(users, me, user.body.profile, input);
    var q := ApplyUserFields(user.body.profile, f);
    BuiltFieldsGiveRequested(user.body.profile, input, now, f);
    if !ValidUser(User(user.body.password, q)) {
      return Err(500, ServerError);
    }
    return Ok(200, q);
  }

  /**
   * `PUT /me`: the checks above, then `findByIdAndUpdate` of the caller's
   * document with the requested profile; the response carries the profile
   * without the password.
   */
  method PutMe(db: Db, me: Doc<User>, input: ProfileInput, now: Time) returns (r: Response<Profile>)
    requires db.Valid()
    modifies db
    ensures db.Valid()
    ensures db.players == old(db.players) && db.conversations == old(db.conversations)
    ensures db.messages == old(db.messages) && db.clock == old(db.clock)
    ensures !r.Ok? ==> db.users == old(db.users)
    ensures Find(old(db.users), me.id).None? ==> r == Err(404, UserNotFound)
    ensures Find(old(db.users), me.id).Some? ==>
              var stored := Find(old(db.users), me.id).value.body;
              && (EmailClash(old(db.users), me.id, stored.profile, input) ==> r == Err(400, EmailInUse))
              && ((!EmailClash(old(db.users), me.id, stored.profile, input)
                   && UsernameClash(old(db.users), me.id, stored.profile, input)) ==> r == Err(400, UsernameTaken))
              && (r.Ok? <==> && !EmailClash(old(db.users), me.id, stored.profile, input)
                             && !UsernameClash(old(db.users), me.id, stored.profile, input)
                             && ValidUser(User(stored.password, Requested(stored.profile, input, now))))
              && (r.Ok? ==> && r.status == 200 && r.body == Requested(stored.profile, input, now)
                            && db.users == Update(old(db.users), me.id, User(stored.password, r.body)))
    ensures r.Err? ==> r.status in {400, 404, 500}
    ensures !r.Banned?
  {
    r := CheckProfileUpdate(db.users, me.id, input, now);
    if r.Ok? {
      var user := Find(db.users, me.id).value;
      ghost var k :| 0 <= k < |db.users| && db.users[k] == user;
      ChecksLeaveAccountFree(db.users, k, input, now, user.body.password);
      var updated := User(user.body.password, r.body);
      assert StoredUserOk(updated) by {
        assert StoredUserOk(db.users[k].body);
        if Truthy(input.email) {
          NormalizeEmailNormalized(input.email.value);
        }
      }
      db.ReplaceUser(me.id, updated);
    }
  }

  /** `GET /me`: the caller's profile without the password, or 404 when the document is gone. */
  function GetMe(users: seq<Doc<User>>, me: Doc<User>): (r: Response<Profile>)
    ensures r.Ok? <==> Find(users, me.id).Some?
    ensures r.Ok? ==> r.status == 200 && r.body == Find(users, me.id).value.body.profile
    ensures !r.Ok? ==> r == Err(404, UserNotFound)
  {
    match Find(users, me.id)
    case None => Err(404, UserNotFound)
    case Some(d) => Ok(200, d.body.profile)
  }

  /** The fields `GET /:id` selects: no e-mail, password, admin or ban data. */
  datatype PublicProfile = PublicProfile(
    id: Id,
    username: string,
    joinDate: Time,
    totalPlayers: int,
    isOnline: bool,
    lastSeen: Option<Time>,
    avatar: string,
    profileVisibility: string,
    showOnlineStatus: bool,
    allowInvites: bool)

  function PublicView(d: Doc<User>): (v: PublicProfile)
    ensures v.id == d.id && v.username == d.body.profile.username && v.isOnline == d.body.profile.isOnline
  {
    var p := d.body.profile;
    PublicProfile(d.id, p.username, p.joinDate, p.totalPlayers, p.isOnline, p.lastSeen, p.avatar,
                  p.profileVisibility, p.showOnlineStatus, p.allowInvites)
  }

  /** `GET /:id` (no authentication): 400 for an id that is not an ObjectId, 404 for an unknown one, else the public fields. */
  function GetUser(users: seq<Doc<User>>, id: Id, isValidId: Id -> bool): (r: Response<PublicProfile>)
    ensures !isValidId(id) ==> r == Err(400, InvalidUserId)
    ensures isValidId(id) && Find(users, id).None? ==> r == Err(404, UserNotFound)
    ensures r.Ok? <==> isValidId(id) && Find(users, id).Some?
    ensures r.Ok? ==> r.status == 200 && r.body == PublicView(Find(users, id).value) && r.body.id == id
  {
    if !isValidId(id) then Err(400, InvalidUserId)
    else match Find(users, id)
      case None => Err(404, UserNotFound)
      case Some(d) => Ok(200, PublicView(d))
  }
}
