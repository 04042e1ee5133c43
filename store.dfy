/**
 * The database the route handlers and socket handlers work on: the four
 * MongoDB collections, each in natural (insertion) order, and the latest
 * clock reading stamped into a conversation or a message.
 *
 * `Db.Valid()` is what holds between two requests: the schema validators
 * hold for every stored document, ids and the unique indexes are unique, and
 * the chat bookkeeping (`lastMessage`, `updatedAt`, one conversation per pair
 * of users) is consistent.
 */
module Store {
  import opened Common
  import opened Collection
  import opened UserModel
  import opened PlayerModel
  import opened MessageModel
  import opened ConversationModel

  ghost predicate PlayersOk(players: seq<Doc<Player>>)
  {
    UniqueIds(players) && forall k {:trigger ValidPlayer(players[k].body)} :: 0 <= k < |players| ==> ValidPlayer(players[k].body)
  }

  /** No two conversations both contain the same two distinct users. */
  ghost predicate PairUnique(convs: seq<Doc<Conversation>>)
  {
    forall i, j, a, b :: 0 <= i < j < |convs| && a != b && HasBoth(convs[i].body, a, b) ==> !HasBoth(convs[j].body, a, b)
  }

  ghost predicate ConversationsOk(convs: seq<Doc<Conversation>>, clock: Time)
  {
    && UniqueIds(convs)
    && PairUnique(convs)
    && forall i :: 0 <= i < |convs| ==> convs[i].body.createdAt <= convs[i].body.updatedAt <= clock
  }

  /** The sort key of the message history. */
  function Stamp(d: Doc<Message>): Time
  {
    d.body.timestamp
  }

  /** Messages are valid, stamped no later than the clock, and stored in timestamp order. */
  ghost predicate MessagesOk(msgs: seq<Doc<Message>>, clock: Time)
  {
    && UniqueIds(msgs)
    && SortedBy(msgs, Stamp)
    && forall j :: 0 <= j < |msgs| ==> ValidMessage(msgs[j].body) && msgs[j].body.timestamp <= clock
  }

  /** `m` belongs to a stored conversation whose `updatedAt` is not before the message. */
  ghost predicate Filed(m: Doc<Message>, convs: seq<Doc<Conversation>>)
  {
    var c := Find(convs, m.body.conversation);
    c.Some? && m.body.timestamp <= c.value.body.updatedAt
  }

  /** The position of the most recently stored message of conversation `cid`, if it has any. */
  function LastOf(msgs: seq<Doc<Message>>, cid: Id): (r: Option<nat>)
    ensures r.Some? ==> && r.value < |msgs| && msgs[r.value].body.conversation == cid
                        && forall k :: r.value < k < |msgs| ==> msgs[k].body.conversation != cid
    ensures r.None? ==> forall k :: 0 <= k < |msgs| ==> msgs[k].body.conversation != cid
  {
    if msgs == [] then None
    else if msgs[|msgs| - 1].body.conversation == cid then Some(|msgs| - 1)
    else LastOf(msgs[..|msgs| - 1], cid)
  }

  /** Storing a message makes it the last of its conversation and changes no other conversation's last. */
  lemma LastOfAppend(msgs: seq<Doc<Message>>, d: Doc<Message>, cid: Id)
    ensures LastOf(msgs + [d], cid) == if d.body.conversation == cid then Some(|msgs|) else LastOf(msgs, cid)
  {
    assert (msgs + [d])[..|msgs|] == msgs;
  }

  /** `lastMessage` of `c` is its most recently stored message, and is absent exactly when it has none. */
  ghost predicate IsLast(c: Doc<Conversation>, msgs: seq<Doc<Message>>)
  {
    var j := LastOf(msgs, c.id);
    if j.None? then c.body.lastMessage.None? else c.body.lastMessage == Some(msgs[j.value].id)
  }

  ghost predicate ChatOk(convs: seq<Doc<Conversation>>, msgs: seq<Doc<Message>>, clock: Time)
  {
    && ConversationsOk(convs, clock)
    && MessagesOk(msgs, clock)
    && (forall j {:trigger Filed(msgs[j], convs)} :: 0 <= j < |msgs| ==> Filed(msgs[j], convs))
    && (forall i {:trigger IsLast(convs[i], msgs)} :: 0 <= i < |convs| ==> IsLast(convs[i], msgs))
  }

  /** No stored conversation already contains two distinct users that `c` contains. */
  ghost predicate NewPair(convs: seq<Doc<Conversation>>, c: Conversation)
  {
    forall i, a, b :: 0 <= i < |convs| && a != b && HasBoth(c, a, b) ==> !HasBoth(convs[i].body, a, b)
  }

  /** A two-party conversation whose pair no stored conversation contains is a new pair. */
  lemma NewPairOfTwo(convs: seq<Doc<Conversation>>, x: Id, y: Id, c: Conversation)
    requires c.participants == [x, y]
    requires forall i :: 0 <= i < |convs| ==> !HasBoth(convs[i].body, x, y)
    ensures NewPair(convs, c)
  {
    forall i, a, b | 0 <= i < |convs| && a != b && HasBoth(c, a, b)
      ensures !HasBoth(convs[i].body, a, b)
    {
      assert (a == x && b == y) || (a == y && b == x);
    }
  }

  /** Recording a message changes no participants and moves `updatedAt` forward to `now`. */
  lemma AppendKeepsConversationsOk(convs: seq<Doc<Conversation>>, clock: Time, cid: Id, v: Conversation, old_v: Conversation, now: Time)
    requires ConversationsOk(convs, clock) && clock <= now
    requires Find(convs, cid) == Some(Doc(cid, old_v))
    requires v.participants == old_v.participants && v.createdAt == old_v.createdAt && v.updatedAt == now
    ensures ConversationsOk(Update(convs, cid, v), now)
  {
    var cs := Update(convs, cid, v);
    UpdateUnique(convs, cid, v);
    forall k | 0 <= k < |cs|
      ensures cs[k].body.participants == convs[k].body.participants
      ensures cs[k].body.createdAt <= cs[k].body.updatedAt <= now
    {
      if convs[k].id == cid {
        FindAt(convs, k);
      }
    }
    SameParticipantsKeepPairUnique(convs, cs);
  }

  /** Pair uniqueness depends on the participants alone. */
  lemma SameParticipantsKeepPairUnique(convs: seq<Doc<Conversation>>, cs: seq<Doc<Conversation>>)
    requires PairUnique(convs) && |cs| == |convs|
    requires forall k :: 0 <= k < |cs| ==> cs[k].body.participants == convs[k].body.participants
    ensures PairUnique(cs)
  {
    forall i, j, a, b | 0 <= i < j < |cs| && a != b && HasBoth(cs[i].body, a, b)
      ensures !HasBoth(cs[j].body, a, b)
    {
      assert HasBoth(convs[i].body, a, b);
    }
  }

  /** Appending a valid message stamped at or after the clock keeps the messages in order. */
  lemma AppendKeepsMessagesOk(msgs: seq<Doc<Message>>, clock: Time, mid: Id, m: Message, now: Time)
    requires MessagesOk(msgs, clock)
    requires Find(msgs, mid).None? && ValidMessage(m) && clock <= m.timestamp <= now
    ensures MessagesOk(msgs + [Doc(mid, m)], now)
  {
    var ms := msgs + [Doc(mid, m)];
    AppendUnique(msgs, Doc(mid, m));
    forall i, j | 0 <= i < j < |ms|
      ensures Stamp(ms[i]) <= Stamp(ms[j])
    {
      assert ms[i] == msgs[i];
      if j < |msgs| {
        assert ms[j] == msgs[j];
      }
    }
    forall j | 0 <= j < |ms|
      ensures ValidMessage(ms[j].body) && ms[j].body.timestamp <= now
    {
      if j < |msgs| {
        assert ms[j] == msgs[j];
      }
    }
  }

  /** After the append, every message still belongs to a conversation active at or after it. */
  lemma AppendKeepsFiled(convs: seq<Doc<Conversation>>, msgs: seq<Doc<Message>>, clock: Time,
                         v: Conversation, mid: Id, m: Message)
    requires forall j :: 0 <= j < |msgs| ==> Filed(msgs[j], convs)
    requires forall j :: 0 <= j < |msgs| ==> msgs[j].body.timestamp <= clock
    requires Find(convs, m.conversation).Some?
    requires clock <= m.timestamp <= v.updatedAt
    ensures forall j :: 0 <= j < |msgs| + 1 ==> Filed((msgs + [Doc(mid, m)])[j], Update(convs, m.conversation, v))
  {
    var cid := m.conversation;
    var cs := Update(convs, cid, v);
    var ms := msgs + [Doc(mid, m)];
    forall j | 0 <= j < |ms|
      ensures Filed(ms[j], cs)
    {
      FindAfterUpdate(convs, cid, v, ms[j].body.conversation);
      if j < |msgs| {
        assert ms[j] == msgs[j];
        assert Filed(msgs[j], convs);
      }
    }
  }

  /** After the append, the recorded conversation points at the new message and every other one is untouched. */
  lemma AppendKeepsLast(convs: seq<Doc<Conversation>>, msgs: seq<Doc<Message>>, v: Conversation, mid: Id, m: Message)
    requires forall i :: 0 <= i < |convs| ==> IsLast(convs[i], msgs)
    requires v.lastMessage == Some(mid)
    ensures forall i :: 0 <= i < |convs| ==> IsLast(Update(convs, m.conversation, v)[i], msgs + [Doc(mid, m)])
  {
    var cid := m.conversation;
    var cs := Update(convs, cid, v);
    var ms := msgs + [Doc(mid, m)];
    forall i | 0 <= i < |cs|
      ensures IsLast(cs[i], ms)
    {
      LastOfAppend(msgs, Doc(mid, m), cs[i].id);
      if convs[i].id != cid {
        assert cs[i] == convs[i];
        assert IsLast(convs[i], msgs);
        if LastOf(msgs, convs[i].id).Some? {
          assert ms[LastOf(msgs, convs[i].id).value] == msgs[LastOf(msgs, convs[i].id).value];
        }
      }
    }
  }

  /** Storing a message and recording it in its conversation keeps the chat consistent. */
  lemma AppendKeepsChatOk(convs: seq<Doc<Conversation>>, msgs: seq<Doc<Message>>, clock: Time,
                          c: Doc<Conversation>, mid: Id, m: Message, setAt: Time, now: Time)
    requires ChatOk(convs, msgs, clock)
    requires Find(convs, m.conversation) == Some(c)
    requires Find(msgs, mid).None? && ValidMessage(m)
    requires clock <= m.timestamp <= now
    ensures ChatOk(Update(convs, m.conversation, RecordMessage(c.body, mid, setAt, now)),
                   msgs + [Doc(mid, m)], now)
  {
    var v := RecordMessage(c.body, mid, setAt, now);
    AppendKeepsConversationsOk(convs, clock, m.conversation, v, c.body, now);
    AppendKeepsMessagesOk(msgs, clock, mid, m, now);
    AppendKeepsFiled(convs, msgs, clock, v, mid, m);
    AppendKeepsLast(convs, msgs, v, mid, m);
  }

  /** Storing a new conversation with no messages and a pair nobody else holds keeps the chat consistent. */
  lemma CreateKeepsChatOk(convs: seq<Doc<Conversation>>, msgs: seq<Doc<Message>>, clock: Time, cid: Id, c: Conversation)
    requires ChatOk(convs, msgs, clock)
    requires Find(convs, cid).None? && NewPair(convs, c)
    requires c.lastMessage.None? && clock <= c.createdAt <= c.updatedAt
    ensures ChatOk(convs + [Doc(cid, c)], msgs, c.updatedAt)
  {
    var cs := convs + [Doc(cid, c)];
    AppendUnique(convs, Doc(cid, c));
    forall i, j, a, b | 0 <= i < j < |cs| && a != b && HasBoth(cs[i].body, a, b)
      ensures !HasBoth(cs[j].body, a, b)
    {
      assert cs[i] == convs[i];
      if j < |convs| {
        assert cs[j] == convs[j];
      }
    }
    forall j | 0 <= j < |msgs|
      ensures Filed(msgs[j], cs)
    {
      assert Filed(msgs[j], convs);
      FindAppend(convs, Doc(cid, c), msgs[j].body.conversation);
    }
    forall k | 0 <= k < |msgs|
      ensures msgs[k].body.conversation != cid
    {
      assert Filed(msgs[k], convs);
    }
    forall i | 0 <= i < |cs|
      ensures IsLast(cs[i], msgs)
    {
      if i < |convs| {
        assert cs[i] == convs[i];
        assert IsLast(convs[i], msgs);
      }
    }
  }

  class Db {
    var users: seq<Doc<User>>
    var players: seq<Doc<Player>>
    var conversations: seq<Doc<Conversation>>
    var messages: seq<Doc<Message>>
    var clock: Time

    ghost predicate Valid()
      reads this
    {
      && UsersOk(users)
      && PlayersOk(players)
      && ChatOk(conversations, messages, clock)
    }

    /** An empty database whose clock starts at `now`. */
    constructor (now: Time)
      ensures Valid()
      ensures users == [] && players == [] && conversations == [] && messages == [] && clock == now
    {
      users := [];
      players := [];
      conversations := [];
      messages := [];
      clock := now;
    }

    /** `new User(...).save()` for a user that passed validation and both unique indexes. */
    method InsertUser(id: Id, u: User)
      requires Valid() && StoredUserOk(u)
      requires Find(users, id).None? && FreeFor(users, id, u)
      modifies this
      ensures users == old(users) + [Doc(id, u)]
      ensures players == old(players) && conversations == old(conversations)
      ensures messages == old(messages) && clock == old(clock)
      ensures Valid()
    {
      InsertKeepsUsersOk(users, id, u);
      users := users + [Doc(id, u)];
    }

    /** Writing back a user document: validators and unique indexes pass for the new value. */
    method ReplaceUser(id: Id, u: User)
      requires Valid() && StoredUserOk(u) && FreeFor(users, id, u)
      modifies this
      ensures users == Update(old(users), id, u)
      ensures players == old(players) && conversations == old(conversations)
      ensures messages == old(messages) && clock == old(clock)
      ensures Valid()
    {
      UpdateKeepsUsersOk(users, id, u);
      users := Update(users, id, u);
    }

    /** `new Player(...).save()` for a player that passed validation. */
    method InsertPlayer(id: Id, p: Player)
      requires Valid() && ValidPlayer(p) && Find(players, id).None?
      modifies this
      ensures players == old(players) + [Doc(id, p)]
      ensures users == old(users) && conversations == old(conversations)
      ensures messages == old(messages) && clock == old(clock)
      ensures Valid()
    {
      AppendUnique(players, Doc(id, p));
      players := players + [Doc(id, p)];
    }

    /** `findByIdAndUpdate` on a player with a value that passed the update validators. */
    method ReplacePlayer(id: Id, p: Player)
      requires Valid() && ValidPlayer(p)
      modifies this
      ensures players == Update(old(players), id, p)
      ensures users == old(users) && conversations == old(conversations)
      ensures messages == old(messages) && clock == old(clock)
      ensures Valid()
    {
      UpdateUnique(players, id, p);
      players := Update(players, id, p);
    }

    /** `findByIdAndDelete` on a player. */
    method DeletePlayer(id: Id)
      requires Valid()
      modifies this
      ensures players == Remove(old(players), id)
      ensures users == old(users) && conversations == old(conversations)
      ensures messages == old(messages) && clock == old(clock)
      ensures Valid()
    {
      RemoveUnique(players, id);
      players := Remove(players, id);
    }

    /** `conversation.save()` of a new conversation for a pair nobody else holds. */
    method InsertConversation(id: Id, c: Conversation)
      requires Valid() && Find(conversations, id).None? && NewPair(conversations, c)
      requires c.lastMessage.None? && clock <= c.createdAt <= c.updatedAt
      modifies this
      ensures conversations == old(conversations) + [Doc(id, c)] && clock == c.updatedAt
      ensures users == old(users) && players == old(players) && messages == old(messages)
      ensures Valid()
    {
      CreateKeepsChatOk(conversations, messages, clock, id, c);
      conversations := conversations + [Doc(id, c)];
      clock := c.updatedAt;
    }

    /**
     * `message.save()` followed by the conversation's bookkeeping: its
     * `lastMessage` is set to the new id, its `updatedAt` the reading
     * `setAt`, and it is saved at reading `now`.
     */
    method AppendMessage(id: Id, m: Message, setAt: Time, now: Time)
      requires Valid() && Find(messages, id).None? && ValidMessage(m)
      requires Find(conversations, m.conversation).Some?
      requires clock <= m.timestamp <= now
      modifies this
      ensures messages == old(messages) + [Doc(id, m)] && clock == now
      ensures conversations ==
              Update(old(conversations), m.conversation,
                     RecordMessage(old(Find(conversations, m.conversation)).value.body, id, setAt, now))
      ensures users == old(users) && players == old(players)
      ensures Valid()
    {
      var c := Find(conversations, m.conversation).value;
      AppendKeepsChatOk(conversations, messages, clock, c, id, m, setAt, now);
      conversations := Update(conversations, m.conversation, RecordMessage(c.body, id, setAt, now));
      messages := messages + [Doc(id, m)];
      clock := now;
    }
  }
}
