/**
 * The User schema: the stored fields, the values a new document gets, the
 * setters (`trim`, `lowercase`), the validators run on save, and the two
 * unique indexes on `username` and `email`.
 */
module UserModel {
  import opened Common
  import opened Text
  import opened Collection

  const Visibilities: seq<string> := ["public", "friends", "private"]

  /** Every field of a user document except the password hash. */
  datatype Profile = Profile(
    username: string,
    email: string,
    joinDate: Time,
    players: seq<Id>,
    totalPlayers: int,
    avatar: string,
    preferredConsole: string,
    timezone: string,
    bio: string,
    isOnline: bool,
    lastSeen: Option<Time>,
    profileVisibility: string,
    showOnlineStatus: bool,
    allowInvites: bool,
    isAdmin: bool,
    isBanned: bool,
    banReason: string,
    bannedBy: Option<Id>,
    banDate: Option<Time>)

  /** A user document: the password hash and the rest of the profile. */
  datatype User = User(password: string, profile: Profile)

  /** What the `username` setter stores. */
  function NormalizeUsername(s: string): string
  {
    Trim(s)
  }

  /** The stored `username` and `email` are what their setters produce: trimmed, and the e-mail lower-case. */
  predicate Normalized(p: Profile)
  {
    Trimmed(p.username) && Trimmed(p.email) && LowerCase(p.email)
  }

  /** The schema validators run by `save()` and by updates with `runValidators`. */
  predicate ValidUser(u: User)
  {
    && 3 <= |u.profile.username| <= 30
    && EmailShaped(u.profile.email)
    && |u.password| >= 6
    && (u.profile.preferredConsole in Consoles || u.profile.preferredConsole == "")
    && (u.profile.timezone in Timezones || u.profile.timezone == "")
    && |u.profile.bio| <= 500
    && u.profile.profileVisibility in Visibilities
  }

  /**
   * `new User({username, email, password})`: the setters applied, every other
   * field at its schema default; the new user is offline, neither admin nor banned,
   * and owns no players.
   */
  function NewUser(username: string, email: string, password: string, now: Time): (u: User)
    ensures u.password == password && Normalized(u.profile)
    ensures u.profile.username == Trim(username) && u.profile.email == NormalizeEmail(email)
    ensures !u.profile.isOnline && !u.profile.isAdmin && !u.profile.isBanned
    ensures u.profile.totalPlayers == 0 && u.profile.players == []
  {
    NormalizeEmailNormalized(email);
    User(password, Profile(
      username := NormalizeUsername(username),
      email := NormalizeEmail(email),
      joinDate := now,
      players := [],
      totalPlayers := 0,
      avatar := Placeholder,
      preferredConsole := "",
      timezone := "",
      bio := "",
      isOnline := false,
      lastSeen := None,
      profileVisibility := "public",
      showOnlineStatus := true,
      allowInvites := true,
      isAdmin := false,
      isBanned := false,
      banReason := "",
      bannedBy := None,
      banDate := None))
  }

  /**
   * The defaults always pass validation, so a new user saves exactly when its
   * trimmed username has 3 to 30 characters, its normalised e-mail matches the
   * pattern and its stored password has at least 6 characters.
   */
  lemma NewUserValidIff(username: string, email: string, password: string, now: Time)
    ensures ValidUser(NewUser(username, email, password, now)) <==>
            3 <= |Trim(username)| <= 30 && EmailShaped(NormalizeEmail(email)) && |password| >= 6
  {
    assert "public" in Visibilities;
  }

  /** `findOne({email})`: the query value goes through the same setters as the stored one. */
  function FindByEmail(users: seq<Doc<User>>, email: string): (r: Option<nat>)
    ensures r.Some? ==> r.value < |users| && users[r.value].body.profile.email == NormalizeEmail(email)
    ensures r.None? ==> forall k :: 0 <= k < |users| ==> users[k].body.profile.email != NormalizeEmail(email)
  {
    FirstIndex(users, EmailIs(NormalizeEmail(email)))
  }

  /** The filter `{email: e}`. */
  function EmailIs(e: string): Doc<User> -> bool
  {
    (d: Doc<User>) => d.body.profile.email == e
  }

  /** `findOne({username})`, the query value trimmed like the stored one. */
  function FindByUsername(users: seq<Doc<User>>, username: string): (r: Option<nat>)
    ensures r.Some? ==> r.value < |users| && users[r.value].body.profile.username == NormalizeUsername(username)
    ensures r.None? ==> forall k :: 0 <= k < |users| ==> users[k].body.profile.username != NormalizeUsername(username)
  {
    var n := NormalizeUsername(username);
    FirstIndex(users, (d: Doc<User>) => d.body.profile.username == n)
  }

  /** A user appended with an e-mail nobody else holds is the one `findOne({email})` finds. */
  lemma FindByEmailAppended(users: seq<Doc<User>>, d: Doc<User>, email: string)
    requires FindByEmail(users, email).None? && d.body.profile.email == NormalizeEmail(email)
    ensures FindByEmail(users + [d], email) == Some(|users|)
  {
    FirstIndexAppended(users, d, EmailIs(NormalizeEmail(email)));
  }

  /** The unique indexes on `username` and `email`. */
  ghost predicate DistinctAccounts(users: seq<Doc<User>>)
  {
    forall i, j :: 0 <= i < j < |users| ==>
      users[i].body.profile.username != users[j].body.profile.username
      && users[i].body.profile.email != users[j].body.profile.email
  }

  /** What holds of the users collection between requests. */
  ghost predicate UsersOk(users: seq<Doc<User>>)
  {
    && UniqueIds(users)
    && DistinctAccounts(users)
    && AllStored(users)
  }

  ghost predicate AllStored(users: seq<Doc<User>>)
  {
    forall k {:trigger StoredUserOk(users[k].body)} :: 0 <= k < |users| ==> StoredUserOk(users[k].body)
  }

  /** A stored user passed validation and holds setter-normalised values. */
  predicate StoredUserOk(u: User)
  {
    ValidUser(u) && Normalized(u.profile)
  }

  /** No user other than `id` holds the username or the e-mail of `v`. */
  ghost predicate FreeFor(users: seq<Doc<User>>, id: Id, v: User)
  {
    forall k :: 0 <= k < |users| && users[k].id != id ==>
      users[k].body.profile.username != v.profile.username
      && users[k].body.profile.email != v.profile.email
  }

  /** Inserting a valid, normalised user whose id, username and e-mail are unused keeps the collection consistent. */
  lemma InsertKeepsUsersOk(users: seq<Doc<User>>, id: Id, v: User)
    requires UsersOk(users) && StoredUserOk(v)
    requires Find(users, id).None? && FreeFor(users, id, v)
    ensures UsersOk(users + [Doc(id, v)])
  {
    AppendUnique(users, Doc(id, v));
    var r := users + [Doc(id, v)];
    forall k | 0 <= k < |r|
      ensures StoredUserOk(r[k].body)
    {
      if k < |users| {
        assert r[k] == users[k];
      }
    }
    forall i, j | 0 <= i < j < |r|
      ensures r[i].body.profile.username != r[j].body.profile.username
      ensures r[i].body.profile.email != r[j].body.profile.email
    {
      assert r[i] == users[i];
      if j < |users| {
        assert r[j] == users[j];
      } else {
        assert users[i].id != id;
      }
    }
  }

  /** Replacing a user by a valid, normalised one whose username and e-mail no other user holds keeps the collection consistent. */
  lemma UpdateKeepsUsersOk(users: seq<Doc<User>>, id: Id, v: User)
    requires UsersOk(users) && StoredUserOk(v) && FreeFor(users, id, v)
    ensures UsersOk(Update(users, id, v))
  {
    UpdateUnique(users, id, v);
    var r := Update(users, id, v);
    forall k | 0 <= k < |r|
      ensures StoredUserOk(r[k].body)
    {
      if users[k].id != id {
        assert r[k] == users[k];
      }
    }
    forall i, j | 0 <= i < j < |r|
      ensures r[i].body.profile.username != r[j].body.profile.username
      ensures r[i].body.profile.email != r[j].body.profile.email
    {
      assert users[i].id != users[j].id;
      if users[i].id != id && users[j].id != id {
        assert r[i] == users[i] && r[j] == users[j];
      } else if users[i].id == id {
        assert r[j] == users[j];
      } else {
        assert r[i] == users[i];
      }
    }
  }

  /** A user keeps its own username and e-mail free: an update that leaves them alone needs no index check. */
  lemma SameAccountIsFree(users: seq<Doc<User>>, k: nat, v: User)
    requires UsersOk(users) && k < |users|
    requires v.profile.username == users[k].body.profile.username
    requires v.profile.email == users[k].body.profile.email
    ensures FreeFor(users, users[k].id, v)
  {
    forall j | 0 <= j < |users| && users[j].id != users[k].id
      ensures users[j].body.profile.username != v.profile.username
      ensures users[j].body.profile.email != v.profile.email
    {
      assert j != k;
    }
  }
}
