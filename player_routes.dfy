/**
 * The player routes: create, list with filters and search, fetch one,
 * edit and delete. `me` is the user document `auth` put on the request.
 *
 * `ObjectId.isValid` is the parameter `isValidId`, `Number.parseInt` the
 * parameter `parseInt` (None for NaN), and MongoDB's case-insensitive
 * `$regex` the parameters `validRegex` (the pattern compiles) and `imatch`
 * (the pattern matches somewhere in the text).
 */
module PlayerRoutes {
  import opened Common
  import opened Text
  import opened Collection
  import opened UserModel
  import opened PlayerModel
  import opened Store

  const PlayerDataRequired := "Player data is required"
  const MissingRequired := "Missing required fields: name, position, rating, console, timezone"
  const InvalidPlayerId := "Invalid player ID"
  const PlayerNotFound := "Player not found"
  const OwnerNotFound := "Player's Owner not found"
  const NotAuthorized := "User not authorized"
  const NoValidFields := "No valid fields provided for update"
  const PlayerRemoved := "Player removed"

  /**
   * `req.body.playerData`; a key the client leaves out is None. `rating` is
   * the number `Number(rating)` yields. Create reads the console from the
   * key `console1`, edit from the key `console`.
   */
  datatype PlayerData = PlayerData(
    name: Option<string>,
    position: Option<string>,
    rating: Option<int>,
    badges: Option<seq<BadgeInput>>,
    console: Option<string>,
    console1: Option<string>,
    timezone: Option<string>,
    attributes: Option<AttributesInput>,
    bio: Option<string>,
    isAvailable: Option<bool>,
    price: Option<string>,
    currency: Option<string>,
    photoUrl: Option<string>,
    screenshotUrl: Option<string>)

  /** The owner fields `populate("owner", ...)` adds to a player in an answer. */
  datatype OwnerCard = OwnerCard(id: Id, username: string, joinDate: Time, totalPlayers: int, isOnline: bool, lastSeen: Option<Time>)

  /** A player as the read routes answer it: the document and its populated owner (None when the owner is gone). */
  datatype Shown = Shown(player: Doc<Player>, owner: Option<OwnerCard>)

  function Card(users: seq<Doc<User>>, owner: Id): (c: Option<OwnerCard>)
    ensures c.Some? <==> Find(users, owner).Some?
    ensures c.Some? ==> c.value.id == owner && c.value.username == Find(users, owner).value.body.profile.username
  {
    match Find(users, owner)
    case None => None
    case Some(u) =>
      var p := u.body.profile;
      Some(OwnerCard(u.id, p.username, p.joinDate, p.totalPlayers, p.isOnline, p.lastSeen))
  }

  function Show(users: seq<Doc<User>>, d: Doc<Player>): (s: Shown)
    ensures s.player == d && s.owner == Card(users, d.body.owner)
  {
    Shown(d, Card(users, d.body.owner))
  }

  function ShowAll(users: seq<Doc<User>>, ds: seq<Doc<Player>>): (r: seq<Shown>)
    ensures |r| == |ds| && forall k :: 0 <= k < |ds| ==> r[k] == Show(users, ds[k])
  {
    seq(|ds|, k requires 0 <= k < |ds| => Show(users, ds[k]))
  }

  // ---------------------------------------------------------------- create

  /** The five fields create insists on are truthy (a rating of 0 is not). */
  predicate RequiredGiven(d: PlayerData)
  {
    Truthy(d.name) && Truthy(d.position) && d.rating.Some? && d.rating.value != 0
    && Truthy(d.console1) && Truthy(d.timezone)
  }

  /**
   * `new Player({...})` as create builds it: the owner is the caller, the
   * name is trimmed by its setter, `isAvailable` is true unless given, an
   * empty or missing picture URL gives the placeholder, and everything else
   * the client leaves out takes its schema default.
   */
  function NewPlayer(owner: Id, d: PlayerData, now: Time): (p: Player)
    requires RequiredGiven(d)
    ensures p.owner == owner && p.name == Trim(d.name.value)
    ensures p.console == d.console1.value
    ensures p.isAvailable == (d.isAvailable.None? || d.isAvailable.value)
    ensures p.photo == (if Truthy(d.photoUrl) then d.photoUrl.value else Placeholder)
    ensures p.screenshot == (if Truthy(d.screenshotUrl) then d.screenshotUrl.value else Placeholder)
    ensures p.joinDate == now && p.gamesPlayed == 0 && p.winRate == 0 && p.preferredModes == []
  {
    Player(
      owner := owner,
      name := Trim(d.name.value),
      position := d.position.value,
      rating := d.rating.value,
      badges := CastBadges(Or(d.badges, [])),
      console := d.console1.value,
      timezone := d.timezone.value,
      joinDate := now,
      gamesPlayed := 0,
      winRate := 0,
      preferredModes := [],
      photo := if Truthy(d.photoUrl) then d.photoUrl.value else Placeholder,
      screenshot := if Truthy(d.screenshotUrl) then d.screenshotUrl.value else Placeholder,
      attributes := CastAttributes(Or(d.attributes, NoAttributes)),
      bio := Or(d.bio, ""),
      isAvailable := Or(d.isAvailable, true),
      price := Or(d.price, ""),
      currency := Or(d.currency, ""))
  }

  /**
   * The new player passes the schema validators exactly when the client's
   * values are in range: in particular an `attributes` object with its three
   * size strings is required, so a create without one always fails.
   */
  lemma NewPlayerValidIff(owner: Id, d: PlayerData, now: Time)
    requires RequiredGiven(d)
    ensures ValidPlayer(NewPlayer(owner, d, now)) <==>
            && 1 <= |Trim(d.name.value)| <= 50
            && d.position.value in Positions
            && 60 <= d.rating.value <= 99
            && (d.badges.Some? ==> forall k :: 0 <= k < |d.badges.value| ==> ValidBadge(CastBadge(d.badges.value[k])))
            && d.console1.value in Consoles
            && d.timezone.value in Timezones
            && d.attributes.Some? && ValidAttributes(CastAttributes(d.attributes.value))
            && (d.bio.Some? ==> |d.bio.value| <= 1000)
  {
    NewPlayerBadgesOk(owner, d, now);
    NewPlayerAttributesOk(owner, d, now);
    if ValidPlayer(NewPlayer(owner, d, now)) {
      ValidNewPlayerFields(owner, d, now);
    }
    if NewPlayerFieldsOk(owner, d, now) {
      NewPlayerFieldsValid(owner, d, now);
    }
  }

  lemma NewPlayerBadgesOk(owner: Id, d: PlayerData, now: Time)
    requires RequiredGiven(d)
    ensures var p := NewPlayer(owner, d, now);
            (forall k :: 0 <= k < |p.badges| ==> ValidBadge(p.badges[k])) <==>
            (d.badges.Some? ==> forall k :: 0 <= k < |d.badges.value| ==> ValidBadge(CastBadge(d.badges.value[k])))
  {
    assert NewPlayer(owner, d, now).badges == CastBadges(Or(d.badges, []));
  }

  lemma NewPlayerAttributesOk(owner: Id, d: PlayerData, now: Time)
    requires RequiredGiven(d)
    ensures ValidAttributes(NewPlayer(owner, d, now).attributes) <==>
            d.attributes.Some? && ValidAttributes(CastAttributes(d.attributes.value))
  {
    assert NewPlayer(owner, d, now).attributes == CastAttributes(Or(d.attributes, NoAttributes));
  }

  /** The validators on the fields create copies from the client, stated on the new document. */
  predicate NewPlayerFieldsOk(owner: Id, d: PlayerData, now: Time)
    requires RequiredGiven(d)
  {
    var p := NewPlayer(owner, d, now);
    && 1 <= |Trim(d.name.value)| <= 50 && d.position.value in Positions && 60 <= d.rating.value <= 99
    && (forall k :: 0 <= k < |p.badges| ==> ValidBadge(p.badges[k]))
    && d.console1.value in Consoles && d.timezone.value in Timezones && ValidAttributes(p.attributes)
    && (d.bio.Some? ==> |d.bio.value| <= 1000)
  }

  lemma ValidNewPlayerFields(owner: Id, d: PlayerData, now: Time)
    requires RequiredGiven(d) && ValidPlayer(NewPlayer(owner, d, now))
    ensures NewPlayerFieldsOk(owner, d, now)
  {
    var p := NewPlayer(owner, d, now);
    assert p.position == d.position.value && p.rating == d.rating.value && p.timezone == d.timezone.value;
    assert p.bio == Or(d.bio, "");
  }

  lemma NewPlayerFieldsValid(owner: Id, d: PlayerData, now: Time)
    requires RequiredGiven(d) && NewPlayerFieldsOk(owner, d, now)
    ensures ValidPlayer(NewPlayer(owner, d, now))
  {
    var p := NewPlayer(owner, d, now);
    assert p.position == d.position.value && p.rating == d.rating.value && p.timezone == d.timezone.value;
    assert p.bio == Or(d.bio, "");
  }

  /** `$push: {players: id}, $inc: {totalPlayers: 1}` on the owner. */
  function Owned(u: User, pid: Id): (v: User)
    ensures v.password == u.password
    ensures v.profile.players == u.profile.players + [pid]
    ensures v.profile.totalPlayers == u.profile.totalPlayers + 1
    ensures v.profile.(players := u.profile.players, totalPlayers := u.profile.totalPlayers) == u.profile
  {
    User(u.password, u.profile.(players := u.profile.players + [pid], totalPlayers := u.profile.totalPlayers + 1))
  }

  /** `$pull: {players: id}, $inc: {totalPlayers: -1}` on the owner: every copy of the id goes. */
  function Disowned(u: User, pid: Id): (v: User)
    ensures v.password == u.password
    ensures forall x :: x in v.profile.players <==> x in u.profile.players && x != pid
    ensures v.profile.totalPlayers == u.profile.totalPlayers - 1
    ensures v.profile.(players := u.profile.players, totalPlayers := u.profile.totalPlayers) == u.profile
  {
    var keep := (x: Id) => x != pid;
    WhereMembers(u.profile.players, keep);
    User(u.password, u.profile.(players := Where(u.profile.players, keep), totalPlayers := u.profile.totalPlayers - 1))
  }

  /** Deleting the player just created gives its owner back the exact profile it had. */
  lemma DisownUndoesOwn(u: User, pid: Id)
    requires pid !in u.profile.players
    ensures Disowned(Owned(u, pid), pid) == u
  {
    WhereAppend(u.profile.players, pid, (x: Id) => x != pid);
    WhereKeepsAll(u.profile.players, (x: Id) => x != pid);
  }

  /**
   * Create: 400 without `playerData` or without one of the five required
   * fields; 500 when the new document fails validation or its id is taken;
   * otherwise the player is stored, its id pushed onto the caller's list and
   * the caller's count raised (nothing happens to a caller that is gone),
   * and the answer is 201 with the new player.
   */
  method Create(db: Db, me: Doc<User>, d: Option<PlayerData>, newId: Id, now: Time)
    returns (r: Response<Doc<Player>>)
    requires db.Valid()
    modifies db
    ensures db.Valid()
    ensures db.conversations == old(db.conversations) && db.messages == old(db.messages) && db.clock == old(db.clock)
    ensures d.None? ==> r == Err(400, PlayerDataRequired)
    ensures d.Some? && !RequiredGiven(d.value) ==> r == Err(400, MissingRequired)
    ensures r.Ok? <==> && d.Some? && RequiredGiven(d.value)
                       && ValidPlayer(NewPlayer(me.id, d.value, now)) && Find(old(db.players), newId).None?
    ensures r.Ok? ==>
              && r == Ok(201, Doc(newId, NewPlayer(me.id, d.value, now)))
              && db.players == old(db.players) + [r.body]
              && db.users == (if Find(old(db.users), me.id).None? then old(db.users)
                              else Update(old(db.users), me.id, Owned(Find(old(db.users), me.id).value.body, newId)))
    ensures !r.Ok? ==> db.players == old(db.players) && db.users == old(db.users)
    ensures r.Err? && r.status != 400 ==> r == Err(500, ServerError)
  {
    if d.None? {
      return Err(400, PlayerDataRequired);
    }
    if !RequiredGiven(d.value) {
      return Err(400, MissingRequired);
    }
    var p := NewPlayer(me.id, d.value, now);
    if !ValidPlayer(p) || Find(db.players, newId).Some? {
      return Err(500, ServerError);
    }
    db.InsertPlayer(newId, p);
    var owner := Find(db.users, me.id);
    if owner.Some? {
      var u := owner.value.body;
      ghost var k :| 0 <= k < |db.users| && db.users[k] == owner.value;
      assert StoredUserOk(u);
      SameAccountIsFree(db.users, k, Owned(u, newId));
      db.ReplaceUser(me.id, Owned(u, newId));
    }
    r := Ok(201, Doc(newId, p));
  }

  // ------------------------------------------------------------------ list

  /** The query-string parameters of the list route. */
  datatype ListParams = ListParams(
    position: Option<string>,
    console: Option<string>,
    timezone: Option<string>,
    minRating: Option<string>,
    maxRating: Option<string>,
    status: Option<string>,
    search: Option<string>,
    owner: Option<string>)

  /**
   * `Number.parseInt` of a rating bound: a number, or NaN. Mongoose's Number
   * cast refuses a NaN bound when `find` runs, so such a filter never
   * reaches the database.
   */
  datatype Num = Num(n: int) | NaN

  function Parse(parseInt: string -> Option<int>, s: string): (n: Num)
    ensures n.Num? <==> parseInt(s).Some?
  {
    match parseInt(s)
    case None => NaN
    case Some(v) => Num(v)
  }

  datatype OwnerFilter = AnyOwner | OwnerIn(ids: seq<Id>) | OwnerIs(id: Id)

  /** The MongoDB filter the list route builds. */
  datatype Query = Query(
    position: Option<string>,
    console: Option<string>,
    timezone: Option<string>,
    minRating: Option<Num>,
    maxRating: Option<Num>,
    owner: OwnerFilter,
    availableOnly: bool,
    search: Option<string>)

  /** The user `id` is stored and online. */
  ghost predicate IsOnlineUser(users: seq<Doc<User>>, id: Id)
  {
    exists k :: 0 <= k < |users| && users[k].id == id && users[k].body.profile.isOnline
  }

  /** `User.find({isOnline: true}).select("_id")`. */
  function OnlineIds(users: seq<Doc<User>>): (r: seq<Id>)
    ensures forall id :: id in r <==> IsOnlineUser(users, id)
  {
    if users == [] then []
    else
      var rest := OnlineIds(users[1..]);
      assert forall id :: IsOnlineUser(users, id) <==>
               (users[0].id == id && users[0].body.profile.isOnline) || IsOnlineUser(users[1..], id) by {
        forall id
          ensures IsOnlineUser(users, id) ==>
                    (users[0].id == id && users[0].body.profile.isOnline) || IsOnlineUser(users[1..], id)
        {
          if IsOnlineUser(users, id) {
            var k :| 0 <= k < |users| && users[k].id == id && users[k].body.profile.isOnline;
            if k > 0 {
              assert users[1..][k - 1] == users[k];
            }
          }
        }
        forall id | IsOnlineUser(users[1..], id)
          ensures IsOnlineUser(users, id)
        {
          var k :| 0 <= k < |users[1..]| && users[1..][k].id == id && users[1..][k].body.profile.isOnline;
          assert users[k + 1] == users[1..][k];
        }
      }
      (if users[0].body.profile.isOnline then [users[0].id] else []) + rest
  }

  /**
   * Building the filter: an equality for each of position, console and time
   * zone that is given, a rating range from the bounds that are given, the
   * online owners for `status=online`, availability for `status=available`,
   * one owner when a valid owner id is given (replacing the online
   * restriction), and the search text.
   */
  method BuildQuery(q: ListParams, users: seq<Doc<User>>, parseInt: string -> Option<int>, isValidId: Id -> bool)
    returns (query: Query)
    ensures query == Query(if Truthy(q.position) then q.position else None,
                           if Truthy(q.console) then q.console else None,
                           if Truthy(q.timezone) then q.timezone else None,
                           if Truthy(q.minRating) then Some(Parse(parseInt, q.minRating.value)) else None,
                           if Truthy(q.maxRating) then Some(Parse(parseInt, q.maxRating.value)) else None,
                           if Truthy(q.owner) && isValidId(q.owner.value) then OwnerIs(q.owner.value)
                           else if q.status == Some("online") then OwnerIn(OnlineIds(users))
                           else AnyOwner,
                           q.status != Some("online") && q.status == Some("available"),
                           if Truthy(q.search) then q.search else None)
  {
    var position := if Truthy(q.position) then q.position else None;
    var console := if Truthy(q.console) then q.console else None;
    var timezone := if Truthy(q.timezone) then q.timezone else None;
    var minRating := if Truthy(q.minRating) then Some(Parse(parseInt, q.minRating.value)) else None;
    var maxRating := if Truthy(q.maxRating) then Some(Parse(parseInt, q.maxRating.value)) else None;
    var owner := AnyOwner;
    var availableOnly := false;
    if q.status == Some("online") {
      owner := OwnerIn(OnlineIds(users));
    } else if q.status == Some("available") {
      availableOnly := true;
    }
    if Truthy(q.owner) && isValidId(q.owner.value) {
      owner := OwnerIs(q.owner.value);
    }
    var search := if Truthy(q.search) then q.search else None;
    query := Query(position, console, timezone, minRating, maxRating, owner, availableOnly, search);
  }

  /** The search text matches the name, the position or the name of some badge. */
  predicate SearchHit(s: string, p: Player, imatch: (string, string) -> bool)
  {
    imatch(s, p.name) || imatch(s, p.position)
    || exists k :: 0 <= k < |p.badges| && p.badges[k].name.Some? && imatch(s, p.badges[k].name.value)
  }

  /** MongoDB's evaluation of the filter on one player document. */
  predicate Matches(query: Query, d: Doc<Player>, imatch: (string, string) -> bool)
  {
    && (query.position.Some? ==> d.body.position == query.position.value)
    && (query.console.Some? ==> d.body.console == query.console.value)
    && (query.timezone.Some? ==> d.body.timezone == query.timezone.value)
    && (query.minRating.Some? ==> query.minRating.value.Num? && query.minRating.value.n <= d.body.rating)
    && (query.maxRating.Some? ==> query.maxRating.value.Num? && d.body.rating <= query.maxRating.value.n)
    && (query.owner.OwnerIn? ==> d.body.owner in query.owner.ids)
    && (query.owner.OwnerIs? ==> d.body.owner == query.owner.id)
    && (query.availableOnly ==> d.body.isAvailable)
    && (query.search.Some? ==> SearchHit(query.search.value, d.body, imatch))
  }

  /** `Player.find(query)`: the matching players in natural order. */
  function Run(players: seq<Doc<Player>>, query: Query, imatch: (string, string) -> bool): (r: seq<Doc<Player>>)
    ensures forall k :: 0 <= k < |r| ==> r[k] in players && Matches(query, r[k], imatch)
  {
    Where(players, (d: Doc<Player>) => Matches(query, d, imatch))
  }

  /** Which players the list route is meant to return, stated on the query parameters directly. */
  ghost predicate Wanted(q: ListParams, users: seq<Doc<User>>, d: Doc<Player>,
                         parseInt: string -> Option<int>, isValidId: Id -> bool, imatch: (string, string) -> bool)
  {
    && (Truthy(q.position) ==> d.body.position == q.position.value)
    && (Truthy(q.console) ==> d.body.console == q.console.value)
    && (Truthy(q.timezone) ==> d.body.timezone == q.timezone.value)
    && (Truthy(q.minRating) ==> parseInt(q.minRating.value).Some? && parseInt(q.minRating.value).value <= d.body.rating)
    && (Truthy(q.maxRating) ==> parseInt(q.maxRating.value).Some? && d.body.rating <= parseInt(q.maxRating.value).value)
    && (Truthy(q.owner) && isValidId(q.owner.value) ==> d.body.owner == q.owner.value)
    && (!(Truthy(q.owner) && isValidId(q.owner.value)) && q.status == Some("online") ==> IsOnlineUser(users, d.body.owner))
    && (q.status == Some("available") ==> d.body.isAvailable)
    && (Truthy(q.search) ==> SearchHit(q.search.value, d.body, imatch))
  }

  /** The players `Wanted` selects, in natural order. */
  ghost function Selected(players: seq<Doc<Player>>, q: ListParams, users: seq<Doc<User>>,
                          parseInt: string -> Option<int>, isValidId: Id -> bool,
                          imatch: (string, string) -> bool): (r: seq<Doc<Player>>)
    ensures forall k :: 0 <= k < |r| ==> r[k] in players && Wanted(q, users, r[k], parseInt, isValidId, imatch)
    ensures forall k :: 0 <= k < |players| && Wanted(q, users, players[k], parseInt, isValidId, imatch) ==> players[k] in r
  {
    Where(players, (d: Doc<Player>) => Wanted(q, users, d, parseInt, isValidId, imatch))
  }

  /** The filter the route builds selects exactly the players `Wanted` describes, in the same order. */
  lemma BuiltQueryRunsSelected(players: seq<Doc<Player>>, q: ListParams, users: seq<Doc<User>>, query: Query,
                               parseInt: string -> Option<int>, isValidId: Id -> bool,
                               imatch: (string, string) -> bool)
    requires query == Query(if Truthy(q.position) then q.position else None,
                            if Truthy(q.console) then q.console else None,
                            if Truthy(q.timezone) then q.timezone else None,
                            if Truthy(q.minRating) then Some(Parse(parseInt, q.minRating.value)) else None,
                            if Truthy(q.maxRating) then Some(Parse(parseInt, q.maxRating.value)) else None,
                            if Truthy(q.owner) && isValidId(q.owner.value) then OwnerIs(q.owner.value)
                            else if q.status == Some("online") then OwnerIn(OnlineIds(users))
                            else AnyOwner,
                            q.status != Some("online") && q.status == Some("available"),
                            if Truthy(q.search) then q.search else None)
    ensures Run(players, query, imatch) == Selected(players, q, users, parseInt, isValidId, imatch)
  {
    forall k | 0 <= k < |players|
      ensures Matches(query, players[k], imatch) == Wanted(q, users, players[k], parseInt, isValidId, imatch)
    {
    }
    WhereSameFilter(players, (d: Doc<Player>) => Matches(query, d, imatch),
                    (d: Doc<Player>) => Wanted(q, users, d, parseInt, isValidId, imatch));
  }

  /** A valid owner id wins over `status=online`: that owner's players are listed whether or not the owner is online. */
  lemma OwnerOverridesOnline(q: ListParams, users: seq<Doc<User>>, d: Doc<Player>,
                             parseInt: string -> Option<int>, isValidId: Id -> bool, imatch: (string, string) -> bool)
    requires q.status == Some("online") && Truthy(q.owner) && isValidId(q.owner.value) && d.body.owner == q.owner.value
    requires !Truthy(q.position) && !Truthy(q.console) && !Truthy(q.timezone)
    requires !Truthy(q.minRating) && !Truthy(q.maxRating) && !Truthy(q.search)
    ensures Wanted(q, users, d, parseInt, isValidId, imatch)
  {
  }

  /**
   * `Player.find(query)` throws before reading anything: a rating bound that
   * `parseInt` turns into NaN fails the Number cast, and a search text that
   * is not a valid regular expression fails to compile.
   */
  predicate FindRejects(q: ListParams, parseInt: string -> Option<int>, validRegex: string -> bool)
  {
    || (Truthy(q.minRating) && parseInt(q.minRating.value).None?)
    || (Truthy(q.maxRating) && parseInt(q.maxRating.value).None?)
    || (Truthy(q.search) && !validRegex(q.search.value))
  }

  /**
   * List: 500 when `find` rejects the filter (an unparsable rating bound or
   * an invalid search pattern); otherwise 200 with the selected players,
   * each with its owner card.
   */
  method ListPlayers(db: Db, q: ListParams, parseInt: string -> Option<int>, isValidId: Id -> bool,
                     validRegex: string -> bool, imatch: (string, string) -> bool)
    returns (r: Response<seq<Shown>>)
    ensures Truthy(q.minRating) && parseInt(q.minRating.value).None? ==> r == Err(500, ServerError)
    ensures Truthy(q.maxRating) && parseInt(q.maxRating.value).None? ==> r == Err(500, ServerError)
    ensures Truthy(q.search) && !validRegex(q.search.value) ==> r == Err(500, ServerError)
    ensures !FindRejects(q, parseInt, validRegex) ==>
              r == Ok(200, ShowAll(db.users, Selected(db.players, q, db.users, parseInt, isValidId, imatch)))
  {
    var query := BuildQuery(q, db.users, parseInt, isValidId);
    if || (query.minRating.Some? && query.minRating.value.NaN?)
       || (query.maxRating.Some? && query.maxRating.value.NaN?)
       || (query.search.Some? && !validRegex(query.search.value)) {
      return Err(500, ServerError);
    }
    BuiltQueryRunsSelected(db.players, q, db.users, query, parseInt, isValidId, imatch);
    r := Ok(200, ShowAll(db.users, Run(db.players, query, imatch)));
  }

  // ------------------------------------------------------------- fetch one

  /** Fetch one: 400 for an id that is not an ObjectId, 404 for an unknown player or a player whose owner is gone. */
  function GetPlayer(users: seq<Doc<User>>, players: seq<Doc<Player>>, id: Id, isValidId: Id -> bool): (r: Response<Shown>)
    ensures !isValidId(id) ==> r == Err(400, InvalidPlayerId)
    ensures isValidId(id) && Find(players, id).None? ==> r == Err(404, PlayerNotFound)
    ensures isValidId(id) && Find(players, id).Some? ==>
              r == (if Find(users, Find(players, id).value.body.owner).None? then Err(404, OwnerNotFound)
                    else Ok(200, Show(users, Find(players, id).value)))
    ensures r.Ok? ==> r.status == 200 && r.body.player in players && r.body.player.id == id && r.body.owner.Some?
    ensures r.Err? ==> r.status in {400, 404}
  {
    if !isValidId(id) then Err(400, InvalidPlayerId)
    else match Find(players, id)
      case None => Err(404, PlayerNotFound)
      case Some(d) =>
        if Find(users, d.body.owner).None? then Err(404, OwnerNotFound)
        else Ok(200, Show(users, d))
  }

  /** A created player can be fetched back, with its owner, as long as the owner exists. */
  lemma GetAfterCreate(users: seq<Doc<User>>, players: seq<Doc<Player>>, id: Id, p: Player, isValidId: Id -> bool)
    requires isValidId(id) && Find(players, id).None? && Find(users, p.owner).Some?
    ensures GetPlayer(users, players + [Doc(id, p)], id, isValidId) == Ok(200, Show(users, Doc(id, p)))
  {
    FindAppend(players, Doc(id, p), id);
  }

  // ------------------------------------------------------------------ edit

  /** The `$set` document of the edit route: a field is present when the client gave it. */
  datatype PlayerUpdate = PlayerUpdate(
    name: Option<string>,
    position: Option<string>,
    rating: Option<int>,
    badges: Option<seq<BadgeInput>>,
    console: Option<string>,
    timezone: Option<string>,
    attributes: Option<AttributesInput>,
    bio: Option<string>,
    isAvailable: Option<bool>,
    price: Option<string>,
    currency: Option<string>,
    photo: Option<string>,
    screenshot: Option<string>)

  predicate IsEmpty(u: PlayerUpdate)
  {
    u == PlayerUpdate(None, None, None, None, None, None, None, None, None, None, None, None, None)
  }

  /** The client gave none of the fields edit reads (an empty picture URL counts as not given). */
  predicate NoneGiven(d: PlayerData)
  {
    && d.name.None? && d.position.None? && d.rating.None? && d.badges.None? && d.console.None?
    && d.timezone.None? && d.attributes.None? && d.bio.None? && d.isAvailable.None?
    && d.price.None? && d.currency.None? && !Truthy(d.photoUrl) && !Truthy(d.screenshotUrl)
  }

  /**
   * Building the `$set` document: every field the client defined is copied
   * (the console from the key `console`, not `console1`); the picture URLs
   * only when non-empty, under the names `photo` and `screenshot`.
   */
  method BuildUpdate(d: PlayerData) returns (u: PlayerUpdate)
    ensures u.name == d.name && u.position == d.position && u.rating == d.rating && u.badges == d.badges
    ensures u.console == d.console && u.timezone == d.timezone && u.attributes == d.attributes
    ensures u.bio == d.bio && u.isAvailable == d.isAvailable && u.price == d.price && u.currency == d.currency
    ensures u.photo == (if Truthy(d.photoUrl) then d.photoUrl else None)
    ensures u.screenshot == (if Truthy(d.screenshotUrl) then d.screenshotUrl else None)
    ensures IsEmpty(u) <==> NoneGiven(d)
  {
    var photo, screenshot := None, None;
    if d.photoUrl.Some? && d.photoUrl.value != "" { photo := d.photoUrl; }
    if d.screenshotUrl.Some? && d.screenshotUrl.value != "" { screenshot := d.screenshotUrl; }
    u := PlayerUpdate(d.name, d.position, d.rating, d.badges, d.console, d.timezone, d.attributes,
                      d.bio, d.isAvailable, d.price, d.currency, photo, screenshot);
  }

  /** `$set` applied to a stored player, with the `name` setter and the casts of badges and attributes. */
  function ApplyUpdate(p: Player, u: PlayerUpdate): (q: Player)
    ensures q.owner == p.owner && q.joinDate == p.joinDate && q.gamesPlayed == p.gamesPlayed
    ensures q.winRate == p.winRate && q.preferredModes == p.preferredModes
    ensures IsEmpty(u) ==> q == p
  {
    p.(name := if u.name.Some? then Trim(u.name.value) else p.name,
       position := Or(u.position, p.position),
       rating := Or(u.rating, p.rating),
       badges := if u.badges.Some? then CastBadges(u.badges.value) else p.badges,
       console := Or(u.console, p.console),
       timezone := Or(u.timezone, p.timezone),
       attributes := if u.attributes.Some? then CastAttributes(u.attributes.value) else p.attributes,
       bio := Or(u.bio, p.bio),
       isAvailable := Or(u.isAvailable, p.isAvailable),
       price := Or(u.price, p.price),
       currency := Or(u.currency, p.currency),
       photo := Or(u.photo, p.photo),
       screenshot := Or(u.screenshot, p.screenshot))
  }

  /** Sending the same edit twice leaves the player as sending it once. */
  lemma ApplyUpdateIdempotent(p: Player, u: PlayerUpdate)
    ensures ApplyUpdate(ApplyUpdate(p, u), u) == ApplyUpdate(p, u)
  {
    var q := ApplyUpdate(p, u);
    var q2 := ApplyUpdate(q, u);
    assert q2.name == q.name by {
      if u.name.Some? {
        TrimIdempotent(u.name.value);
      }
    }
  }

  /**
   * The player an edit is meant to produce, stated on the client's data
   * directly: each field the client gave replaces the stored one (the name
   * trimmed, a non-empty picture URL as the picture); the owner, the join
   * date, the game count, the win rate and the modes never change.
   */
  function Edited(p: Player, d: PlayerData): (q: Player)
    ensures q.owner == p.owner && q.joinDate == p.joinDate && q.gamesPlayed == p.gamesPlayed
    ensures q.winRate == p.winRate && q.preferredModes == p.preferredModes
    ensures NoneGiven(d) ==> q == p
  {
    Player(
      owner := p.owner,
      name := if d.name.Some? then Trim(d.name.value) else p.name,
      position := Or(d.position, p.position),
      rating := Or(d.rating, p.rating),
      badges := if d.badges.Some? then CastBadges(d.badges.value) else p.badges,
      console := Or(d.console, p.console),
      timezone := Or(d.timezone, p.timezone),
      joinDate := p.joinDate,
      gamesPlayed := p.gamesPlayed,
      winRate := p.winRate,
      preferredModes := p.preferredModes,
      photo := if Truthy(d.photoUrl) then d.photoUrl.value else p.photo,
      screenshot := if Truthy(d.screenshotUrl) then d.screenshotUrl.value else p.screenshot,
      attributes := if d.attributes.Some? then CastAttributes(d.attributes.value) else p.attributes,
      bio := Or(d.bio, p.bio),
      isAvailable := Or(d.isAvailable, p.isAvailable),
      price := Or(d.price, p.price),
      currency := Or(d.currency, p.currency))
  }

  /** The `$set` document the route builds produces the intended player. */
  lemma BuiltUpdateGivesEdited(p: Player, d: PlayerData, u: PlayerUpdate)
    requires u.name == d.name && u.position == d.position && u.rating == d.rating && u.badges == d.badges
    requires u.console == d.console && u.timezone == d.timezone && u.attributes == d.attributes
    requires u.bio == d.bio && u.isAvailable == d.isAvailable && u.price == d.price && u.currency == d.currency
    requires u.photo == (if Truthy(d.photoUrl) then d.photoUrl else None)
    requires u.screenshot == (if Truthy(d.screenshotUrl) then d.screenshotUrl else None)
    ensures ApplyUpdate(p, u) == Edited(p, d)
  {
  }

  /** The owner, or any admin, may edit a player. */
  predicate MayEdit(me: Doc<User>, p: Player)
  {
    p.owner == me.id || me.body.profile.isAdmin
  }

  /**
   * Edit: 400 for an invalid id, 404 for an unknown player, 401 for a caller
   * who is neither the owner nor an admin, 400 without `playerData` or
   * without any field to set, 500 when the edited player fails validation;
   * otherwise the player is replaced and returned with its owner card.
   */
  method UpdatePlayer(db: Db, me: Doc<User>, id: Id, d: Option<PlayerData>, isValidId: Id -> bool)
    returns (r: Response<Shown>)
    requires db.Valid()
    modifies db
    ensures db.Valid()
    ensures db.users == old(db.users) && db.conversations == old(db.conversations)
    ensures db.messages == old(db.messages) && db.clock == old(db.clock)
    ensures !isValidId(id) ==> r == Err(400, InvalidPlayerId)
    ensures isValidId(id) && Find(old(db.players), id).None? ==> r == Err(404, PlayerNotFound)
    ensures (isValidId(id) && Find(old(db.players), id).Some?
             && !MayEdit(me, Find(old(db.players), id).value.body)) ==> r == Err(401, NotAuthorized)
    ensures (isValidId(id) && Find(old(db.players), id).Some? && MayEdit(me, Find(old(db.players), id).value.body)
             && d.None?) ==> r == Err(400, PlayerDataRequired)
    ensures (isValidId(id) && Find(old(db.players), id).Some? && MayEdit(me, Find(old(db.players), id).value.body)
             && d.Some? && NoneGiven(d.value)) ==> r == Err(400, NoValidFields)
    ensures r.Ok? <==>
            && isValidId(id) && Find(old(db.players), id).Some?
            && MayEdit(me, Find(old(db.players), id).value.body)
            && d.Some? && !NoneGiven(d.value)
            && ValidPlayer(Edited(Find(old(db.players), id).value.body, d.value))
    ensures r.Ok? ==>
              var q := Edited(Find(old(db.players), id).value.body, d.value);
              && db.players == Update(old(db.players), id, q)
              && r == Ok(200, Show(db.users, Doc(id, q)))
    ensures !r.Ok? ==> db.players == old(db.players)
    ensures r.Err? ==> r.status in {400, 401, 404, 500}
  {
    if !isValidId(id) {
      return Err(400, InvalidPlayerId);
    }
    var found := Find(db.players, id);
    if found.None? {
      return Err(404, PlayerNotFound);
    }
    var p := found.value.body;
    if !MayEdit(me, p) {
      return Err(401, NotAuthorized);
    }
    if d.None? {
      return Err(400, PlayerDataRequired);
    }
    var u := BuildUpdate(d.value);
    if IsEmpty(u) {
      return Err(400, NoValidFields);
    }
    BuiltUpdateGivesEdited(p, d.value, u);
    var q := ApplyUpdate(p, u);
    if !ValidPlayer(q) {
      return Err(500, ServerError);
    }
    db.ReplacePlayer(id, q);
    r := Ok(200, Show(db.users, Doc(id, q)));
  }

  // ---------------------------------------------------------------- delete

  /**
   * Delete: 400 for an invalid id, 404 for an unknown player, 401 for anyone
   * but the owner (admins included); otherwise the player is removed, its id
   * pulled from the caller's list and the caller's count lowered.
   */
  method DeletePlayer(db: Db, me: Doc<User>, id: Id, isValidId: Id -> bool)
    returns (r: Response<string>)
    requires db.Valid()
    modifies db
    ensures db.Valid()
    ensures db.conversations == old(db.conversations) && db.messages == old(db.messages) && db.clock == old(db.clock)
    ensures !isValidId(id) ==> r == Err(400, InvalidPlayerId)
    ensures isValidId(id) && Find(old(db.players), id).None? ==> r == Err(404, PlayerNotFound)
    ensures r.Ok? <==> isValidId(id) && Find(old(db.players), id).Some? && Find(old(db.players), id).value.body.owner == me.id
    ensures !r.Ok? && !(isValidId(id) && Find(old(db.players), id).None?) && isValidId(id) ==> r == Err(401, NotAuthorized)
    ensures r.Ok? ==>
              && r == Ok(200, PlayerRemoved)
              && db.players == Remove(old(db.players), id)
              && db.users == (if Find(old(db.users), me.id).None? then old(db.users)
                              else Update(old(db.users), me.id, Disowned(Find(old(db.users), me.id).value.body, id)))
    ensures !r.Ok? ==> db.players == old(db.players) && db.users == old(db.users)
  {
    if !isValidId(id) {
      return Err(400, InvalidPlayerId);
    }
    var found := Find(db.players, id);
    if found.None? {
      return Err(404, PlayerNotFound);
    }
    if found.value.body.owner != me.id {
      return Err(401, NotAuthorized);
    }
    db.DeletePlayer(id);
    var owner := Find(db.users, me.id);
    if owner.Some? {
      var u := owner.value.body;
      ghost var k :| 0 <= k < |db.users| && db.users[k] == owner.value;
      assert StoredUserOk(u);
      SameAccountIsFree(db.users, k, Disowned(u, id));
      db.ReplaceUser(me.id, Disowned(u, id));
    }
    r := Ok(200, PlayerRemoved);
  }

  /** Deleting a player right after creating it restores the players collection. */
  lemma DeleteUndoesCreate(players: seq<Doc<Player>>, id: Id, p: Player)
    requires Find(players, id).None?
    ensures Remove(players + [Doc(id, p)], id) == players
  {
    RemoveAppended(players, Doc(id, p));
  }
}
