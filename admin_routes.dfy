/**
 * The admin routes behind `adminAuth`: the user list, ban, unban and the
 * statistics. `admin` is the user document `adminAuth` let through.
 */
module AdminRoutes {
  import opened Common
  import opened Collection
  import opened UserModel
  import opened PlayerModel
  import opened Store

  const UserNotFound := "User not found"
  const BannedOk := "User banned successfully"
  const UnbannedOk := "User unbanned successfully"

  /** `find().select("-password")`: every user, in natural order, without the password hash. */
  function ListUsers(users: seq<Doc<User>>): (r: seq<Doc<Profile>>)
    ensures |r| == |users|
    ensures forall k :: 0 <= k < |r| ==> r[k].id == users[k].id && r[k].body == users[k].body.profile
  {
    seq(|users|, k requires 0 <= k < |users| => Doc(users[k].id, users[k].body.profile))
  }

  /**
   * The ban fields as the ban route sets them. A `reason` the client leaves
   * out unsets the field, which then reads back as its default "".
   */
  function BanProfile(p: Profile, admin: Id, reason: Option<string>, now: Time): (q: Profile)
    ensures q.isBanned && q.bannedBy == Some(admin) && q.banDate == Some(now)
    ensures q.banReason == (if reason.Some? then reason.value else "")
    ensures q == p.(isBanned := q.isBanned, banReason := q.banReason, bannedBy := q.bannedBy, banDate := q.banDate)
  {
    p.(isBanned := true, banReason := if reason.Some? then reason.value else "",
       bannedBy := Some(admin), banDate := Some(now))
  }

  /** The ban fields as the unban route resets them, whatever they held. */
  function UnbanProfile(p: Profile): (q: Profile)
    ensures !q.isBanned && q.banReason == "" && q.bannedBy.None? && q.banDate.None?
    ensures q == p.(isBanned := false, banReason := "", bannedBy := None, banDate := None)
  {
    p.(isBanned := false, banReason := "", bannedBy := None, banDate := None)
  }

  /** Unbanning twice is unbanning once. */
  lemma UnbanIdempotent(p: Profile)
    ensures UnbanProfile(UnbanProfile(p)) == UnbanProfile(p)
  {
  }

  /** A ban followed by an unban leaves the profile as an unban alone would, whoever banned and why. */
  lemma UnbanUndoesBan(p: Profile, admin: Id, reason: Option<string>, now: Time)
    ensures UnbanProfile(BanProfile(p, admin, reason, now)) == UnbanProfile(p)
  {
  }

  /** Banning and unbanning touch neither the validated fields nor the unique ones, so a stored user stays storable. */
  lemma BanFieldsKeepStoredOk(u: User, admin: Id, reason: Option<string>, now: Time)
    requires StoredUserOk(u)
    ensures StoredUserOk(User(u.password, BanProfile(u.profile, admin, reason, now)))
    ensures StoredUserOk(User(u.password, UnbanProfile(u.profile)))
  {
  }

  /**
   * Ban (or unban, when `ban` is false) the user `id`: an id that is not an
   * ObjectId makes `findById` throw (500); an unknown user gives 404 and
   * changes nothing; otherwise only that user's four ban fields change.
   */
  method SetBan(db: Db, admin: Doc<User>, id: Id, ban: bool, reason: Option<string>, now: Time, isValidId: Id -> bool)
    returns (r: Response<string>)
    requires db.Valid()
    modifies db
    ensures db.Valid()
    ensures db.players == old(db.players) && db.conversations == old(db.conversations)
    ensures db.messages == old(db.messages) && db.clock == old(db.clock)
    ensures !isValidId(id) ==> r == Err(500, ServerError)
    ensures isValidId(id) && Find(old(db.users), id).None? ==> r == Err(404, UserNotFound)
    ensures r.Ok? <==> isValidId(id) && Find(old(db.users), id).Some?
    ensures !r.Ok? ==> db.users == old(db.users)
    ensures r.Ok? ==>
              var u := Find(old(db.users), id).value.body;
              var p := if ban then BanProfile(u.profile, admin.id, reason, now) else UnbanProfile(u.profile);
              && db.users == Update(old(db.users), id, User(u.password, p))
              && r == Ok(200, if ban then BannedOk else UnbannedOk)
  {
    if !isValidId(id) {
      return Err(500, ServerError);
    }
    var found := Find(db.users, id);
    if found.None? {
      return Err(404, UserNotFound);
    }
    var u := found.value.body;
    ghost var k :| 0 <= k < |db.users| && db.users[k] == found.value;
    var p := if ban then BanProfile(u.profile, admin.id, reason, now) else UnbanProfile(u.profile);
    assert StoredUserOk(u);
    BanFieldsKeepStoredOk(u, admin.id, reason, now);
    SameAccountIsFree(db.users, k, User(u.password, p));
    db.ReplaceUser(id, User(u.password, p));
    r := Ok(200, if ban then BannedOk else UnbannedOk);
  }

  datatype Stats = Stats(totalUsers: nat, totalPlayers: nat, bannedUsers: nat, onlineUsers: nat)

  /** The four `countDocuments` of the stats route. */
  function GetStats(users: seq<Doc<User>>, players: seq<Doc<Player>>): (s: Stats)
    ensures s.totalUsers == |users| && s.totalPlayers == |players|
    ensures s.bannedUsers <= s.totalUsers && s.onlineUsers <= s.totalUsers
    ensures s.bannedUsers == |set k: nat | k < |users| && users[k].body.profile.isBanned|
    ensures s.onlineUsers == |set k: nat | k < |users| && users[k].body.profile.isOnline|
  {
    var banned := (d: Doc<User>) => d.body.profile.isBanned;
    var online := (d: Doc<User>) => d.body.profile.isOnline;
    assert Hits(users, banned) == set k: nat | k < |users| && users[k].body.profile.isBanned;
    assert Hits(users, online) == set k: nat | k < |users| && users[k].body.profile.isOnline;
    Stats(|users|, |players|, Count(users, banned), Count(users, online))
  }

  /** Banning a user who was not banned raises the banned count by exactly one. */
  lemma {:induction false} BanCountsOnce(users: seq<Doc<User>>, id: Id, v: User)
    requires UniqueIds(users) && v.profile.isBanned
    requires Find(users, id).Some? && !Find(users, id).value.body.profile.isBanned
    ensures Count(Update(users, id, v), (d: Doc<User>) => d.body.profile.isBanned)
            == Count(users, (d: Doc<User>) => d.body.profile.isBanned) + 1
  {
    var b := (d: Doc<User>) => d.body.profile.isBanned;
    assert users != [];
    var rest := users[1..];
    assert users == [users[0]] + rest;
    var r := Update(users, id, v);
    assert r == [r[0]] + r[1..];
    if users[0].id == id {
      assert Find(users, id).value == users[0];
      assert Find(rest, id).None? by {
        forall k | 0 <= k < |rest|
          ensures rest[k].id != id
        {
          assert rest[k] == users[k + 1];
        }
      }
      UpdateAbsent(rest, id, v);
      assert r[1..] == Update(rest, id, v);
      CountCons(users[0], rest, b);
      CountCons(r[0], r[1..], b);
    } else {
      assert Find(rest, id) == Find(users, id);
      assert UniqueIds(rest) by {
        forall i, j | 0 <= i < j < |rest|
          ensures rest[i].id != rest[j].id
        {
          assert rest[i] == users[i + 1] && rest[j] == users[j + 1];
        }
      }
      BanCountsOnce(rest, id, v);
      assert r[1..] == Update(rest, id, v);
      CountCons(users[0], rest, b);
      CountCons(r[0], r[1..], b);
    }
  }

  /** Updating an id that is not stored changes nothing. */
  lemma UpdateAbsent<T>(s: seq<Doc<T>>, id: Id, v: T)
    requires Find(s, id).None?
    ensures Update(s, id, v) == s
  {
  }
}
