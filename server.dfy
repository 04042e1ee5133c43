/**
 * The server's own logic: the origin check of the HTTP CORS middleware and
 * the Socket.IO handlers for rooms, live messages and presence.
 *
 * `Io` is the Socket.IO server's state: the connected sockets, the room
 * table, and the emissions sent so far (each to a set of sockets). The
 * database handlers write to is the same `Db` the HTTP routes use.
 */
module Server {
  import opened Common
  import opened Collection
  import opened UserModel
  import opened MessageModel
  import opened ConversationModel
  import opened Store

  // ------------------------------------------------------------------ CORS

  /**
   * The origins the HTTP server and the socket server accept: the two local
   * front-end ports, then `FRONTEND_URL` and `RENDER_EXTERNAL_URL`, each only
   * when set to a non-empty value.
   */
  function AllowedOrigins(frontendUrl: Option<string>, renderUrl: Option<string>): (r: seq<string>)
    ensures |r| >= 2 && r[..2] == ["http://localhost:5173", "http://localhost:3000"]
    ensures forall o :: o in r <==> (|| o == "http://localhost:5173" || o == "http://localhost:3000"
                                     || (Truthy(frontendUrl) && o == frontendUrl.value)
                                     || (Truthy(renderUrl) && o == renderUrl.value))
    ensures forall k :: 0 <= k < |r| ==> r[k] != ""
    ensures |r| == 2 + (if Truthy(frontendUrl) then 1 else 0) + (if Truthy(renderUrl) then 1 else 0)
    ensures Truthy(frontendUrl) ==> r[2] == frontendUrl.value
    ensures Truthy(renderUrl) ==> r[|r| - 1] == renderUrl.value
  {
    ["http://localhost:5173", "http://localhost:3000"]
    + (if Truthy(frontendUrl) then [frontendUrl.value] else [])
    + (if Truthy(renderUrl) then [renderUrl.value] else [])
  }

  /** The `origin` callback: a request without an `Origin` header passes, any other only when listed. */
  predicate OriginAllowed(allowed: seq<string>, origin: Option<string>)
  {
    !Truthy(origin) || origin.value in allowed
  }

  /** Whatever the configuration, requests without an origin and the two local front ends are accepted, and nothing unlisted is. */
  lemma OriginCheck(frontendUrl: Option<string>, renderUrl: Option<string>, origin: string)
    ensures OriginAllowed(AllowedOrigins(frontendUrl, renderUrl), None)
    ensures OriginAllowed(AllowedOrigins(frontendUrl, renderUrl), Some("http://localhost:5173"))
    ensures OriginAllowed(AllowedOrigins(frontendUrl, renderUrl), Some("http://localhost:3000"))
    ensures origin != "" && !Truthy(frontendUrl) && !Truthy(renderUrl) ==>
              (OriginAllowed(AllowedOrigins(frontendUrl, renderUrl), Some(origin)) <==>
               origin == "http://localhost:5173" || origin == "http://localhost:3000")
  {
  }

  // ------------------------------------------------------------ Socket.IO

  type SocketId = string

  /** The sender as the live message carries it. */
  datatype SenderCard = SenderCard(id: Id, username: string, avatar: string)

  datatype Event =
    | ReceiveMessage(id: Id, conversation: Id, sender: SenderCard, content: string, timestamp: Time)
    | UserStatusUpdate(userId: Id, isOnline: bool)

  /** One `emit`: the sockets it goes to and the event. */
  datatype Emission = Emission(to: set<SocketId>, event: Event)

  /** The members of a room; a room nobody joined is empty. */
  function RoomOf(rooms: map<Id, set<SocketId>>, room: Id): (r: set<SocketId>)
    ensures room !in rooms ==> r == {}
  {
    if room in rooms then rooms[room] else {}
  }

  /** The `sendMessage` payload passes every check and the message saves. */
  ghost predicate Accepts(convs: seq<Doc<Conversation>>, msgs: seq<Doc<Message>>, conversationId: Id, senderId: Id,
                          content: Option<string>, newId: Id, t1: Time, isValidId: Id -> bool)
  {
    && isValidId(conversationId) && isValidId(senderId)
    && Find(convs, conversationId).Some?
    && HasParticipant(Find(convs, conversationId).value.body, senderId)
    && ValidMessage(NewMessage(conversationId, senderId, Or(content, ""), t1))
    && Find(msgs, newId).None?
  }

  /** The event a stored message is broadcast as, with the sender's public card. */
  function LiveMessage(id: Id, m: Message, sender: Doc<User>): (e: Event)
    ensures e.ReceiveMessage? && e.id == id && e.conversation == m.conversation
    ensures e.sender.id == sender.id && e.content == m.content && e.timestamp == m.timestamp
  {
    ReceiveMessage(id, m.conversation, SenderCard(sender.id, sender.body.profile.username, sender.body.profile.avatar),
                   m.content, m.timestamp)
  }

  /** `{isOnline: true, lastSeen: null}` or `{isOnline: false, lastSeen: now}` on a profile. */
  function Presence(u: User, online: bool, now: Time): (v: User)
    ensures v.password == u.password && v.profile.isOnline == online
    ensures v.profile.lastSeen == (if online then None else Some(now))
    ensures v.profile.(isOnline := u.profile.isOnline, lastSeen := u.profile.lastSeen) == u.profile
  {
    User(u.password, u.profile.(isOnline := online, lastSeen := if online then None else Some(now)))
  }

  /** Going online after going offline leaves a user as going online alone would: the last-seen time is cleared. */
  lemma OnlineClearsLastSeen(u: User, t: Time, t': Time)
    ensures Presence(Presence(u, false, t), true, t') == Presence(u, true, t')
  {
  }

  /** `User.findByIdAndUpdate(userId, presence)`: a user that is not stored is left alone. */
  method StorePresence(db: Db, userId: Id, online: bool, now: Time)
    requires db.Valid()
    modifies db
    ensures db.Valid()
    ensures db.players == old(db.players) && db.conversations == old(db.conversations)
    ensures db.messages == old(db.messages) && db.clock == old(db.clock)
    ensures db.users == (if Find(old(db.users), userId).None? then old(db.users)
                         else Update(old(db.users), userId, Presence(Find(old(db.users), userId).value.body, online, now)))
  {
    var found := Find(db.users, userId);
    if found.Some? {
      var u := found.value.body;
      ghost var k :| 0 <= k < |db.users| && db.users[k] == found.value;
      assert StoredUserOk(u);
      SameAccountIsFree(db.users, k, Presence(u, online, now));
      db.ReplaceUser(userId, Presence(u, online, now));
    }
  }

  /**
   * The writes of `sendMessage`: when the payload is accepted the message is
   * stored and recorded in its conversation; otherwise nothing changes.
   */
  method StoreMessage(db: Db, conversationId: Id, senderId: Id, content: Option<string>, newId: Id,
                      t1: Time, t2: Time, t3: Time, isValidId: Id -> bool)
    returns (stored: bool)
    requires db.Valid() && db.clock <= t1 <= t3
    modifies db
    ensures db.Valid()
    ensures db.users == old(db.users) && db.players == old(db.players)
    ensures stored == Accepts(old(db.conversations), old(db.messages), conversationId, senderId, content, newId, t1, isValidId)
    ensures !stored ==> && db.conversations == old(db.conversations) && db.messages == old(db.messages)
                        && db.clock == old(db.clock)
    ensures stored ==>
              && db.messages == old(db.messages) + [Doc(newId, NewMessage(conversationId, senderId, Or(content, ""), t1))]
              && db.conversations == Update(old(db.conversations), conversationId,
                                            RecordMessage(Find(old(db.conversations), conversationId).value.body, newId, t2, t3))
              && db.clock == t3
  {
    if !isValidId(conversationId) || !isValidId(senderId) {
      return false;
    }
    var found := Find(db.conversations, conversationId);
    if found.None? || !HasParticipant(found.value.body, senderId) {
      return false;
    }
    var m := NewMessage(conversationId, senderId, Or(content, ""), t1);
    if !ValidMessage(m) || Find(db.messages, newId).Some? {
      return false;
    }
    db.AppendMessage(newId, m, t2, t3);
    stored := true;
  }

  class Io {
    var connected: set<SocketId>
    var rooms: map<Id, set<SocketId>>
    var outbox: seq<Emission>

    /** Only connected sockets are in rooms. */
    ghost predicate Valid()
      reads this
    {
      forall room :: room in rooms ==> rooms[room] <= connected
    }

    constructor ()
      ensures Valid()
      ensures connected == {} && rooms == map[] && outbox == []
    {
      connected := {};
      rooms := map[];
      outbox := [];
    }

    /** `connection`: the socket joins the server in no room. */
    method Connect(s: SocketId)
      requires Valid()
      modifies this
      ensures Valid()
      ensures connected == old(connected) + {s} && rooms == old(rooms) && outbox == old(outbox)
    {
      connected := connected + {s};
    }

    /** `disconnect`: the socket leaves every room; the user's presence is not touched. */
    method Disconnect(s: SocketId)
      requires Valid()
      modifies this
      ensures Valid()
      ensures connected == old(connected) - {s}
      ensures rooms == map room | room in old(rooms) :: old(rooms)[room] - {s}
      ensures outbox == old(outbox)
    {
      connected := connected - {s};
      rooms := map room | room in rooms :: rooms[room] - {s};
    }

    /**
     * `joinRoom`: a socket joins the room of any conversation id that is a
     * valid ObjectId. Nothing checks that the conversation exists or that
     * the socket's user takes part in it.
     */
    method JoinRoom(s: SocketId, conversationId: Id, isValidId: Id -> bool)
      requires Valid() && s in connected
      modifies this
      ensures Valid()
      ensures connected == old(connected) && outbox == old(outbox)
      ensures !isValidId(conversationId) ==> rooms == old(rooms)
      ensures isValidId(conversationId) ==>
                rooms == old(rooms)[conversationId := RoomOf(old(rooms), conversationId) + {s}]
    {
      if !isValidId(conversationId) {
        return;
      }
      rooms := rooms[conversationId := RoomOf(rooms, conversationId) + {s}];
    }

    /**
     * `sendMessage`: the sender id comes from the payload. An invalid id, an
     * unknown conversation, a sender who is not a participant, or a message
     * that fails to save: nothing changes and nothing is emitted. Otherwise
     * the message is stored and recorded in its conversation as the route
     * does, and broadcast to the conversation's room with the sender's card;
     * when the sender's user document is gone, reading its card throws after
     * the writes, so nothing is emitted.
     */
    method SendMessage(db: Db, conversationId: Id, senderId: Id, content: Option<string>, newId: Id,
                       t1: Time, t2: Time, t3: Time, isValidId: Id -> bool)
      requires Valid() && db.Valid() && db.clock <= t1 <= t3
      modifies this, db
      ensures Valid() && db.Valid()
      ensures connected == old(connected) && rooms == old(rooms)
      ensures db.users == old(db.users) && db.players == old(db.players)
      ensures db.messages == old(db.messages) +
                             (if Accepts(old(db.conversations), old(db.messages), conversationId, senderId, content, newId, t1, isValidId)
                              then [Doc(newId, NewMessage(conversationId, senderId, Or(content, ""), t1))] else [])
      ensures db.clock == if Accepts(old(db.conversations), old(db.messages), conversationId, senderId, content, newId, t1, isValidId)
                          then t3 else old(db.clock)
      ensures db.conversations ==
                if Accepts(old(db.conversations), old(db.messages), conversationId, senderId, content, newId, t1, isValidId)
                then Update(old(db.conversations), conversationId,
                            RecordMessage(Find(old(db.conversations), conversationId).value.body, newId, t2, t3))
                else old(db.conversations)
      ensures outbox == old(outbox) +
                       (if Accepts(old(db.conversations), old(db.messages), conversationId, senderId, content, newId, t1, isValidId)
                           && Find(db.users, senderId).Some?
                        then [Emission(RoomOf(rooms, conversationId),
                                       LiveMessage(newId, NewMessage(conversationId, senderId, Or(content, ""), t1), Find(db.users, senderId).value))]
                        else [])
    {
      var sender := Find(db.users, senderId);
      var room := RoomOf(rooms, conversationId);
      assert (db as object) != this;
      var stored := StoreMessage(db, conversationId, senderId, content, newId, t1, t2, t3, isValidId);
      var m := NewMessage(conversationId, senderId, Or(content, ""), t1);
      outbox := outbox + if stored && sender.Some? then [Emission(room, LiveMessage(newId, m, sender.value))] else [];
    }

    /**
     * `goOnline` / `goOffline`: for a valid id, the user (when stored) gets
     * the new presence, and every connected socket is told about the change,
     * whether or not the user exists.
     */
    method SetPresence(db: Db, userId: Id, online: bool, now: Time, isValidId: Id -> bool)
      requires Valid() && db.Valid()
      modifies this, db
      ensures Valid() && db.Valid()
      ensures connected == old(connected) && rooms == old(rooms)
      ensures db.players == old(db.players) && db.conversations == old(db.conversations)
      ensures db.messages == old(db.messages) && db.clock == old(db.clock)
      ensures !isValidId(userId) ==> db.users == old(db.users) && outbox == old(outbox)
      ensures isValidId(userId) ==>
                && outbox == old(outbox) + [Emission(connected, UserStatusUpdate(userId, online))]
                && db.users == (if Find(old(db.users), userId).None? then old(db.users)
                                else Update(old(db.users), userId, Presence(Find(old(db.users), userId).value.body, online, now)))
    {
      if !isValidId(userId) {
        return;
      }
      assert (db as object) != this;
      StorePresence(db, userId, online, now);
      outbox := outbox + [Emission(connected, UserStatusUpdate(userId, online))];
    }
  }

  /**
   * Rooms are not guarded: a socket that joined a conversation's room
   * receives every message broadcast there, participant or not.
   */
  lemma JoinedSocketHearsRoom(rooms: map<Id, set<SocketId>>, s: SocketId, conversationId: Id, e: Event)
    ensures s in Emission(RoomOf(rooms[conversationId := RoomOf(rooms, conversationId) + {s}], conversationId), e).to
  {
  }
}
