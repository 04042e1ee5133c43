/**
 * The message routes: send a message into a conversation and read a
 * conversation's history. `me` is the user document `auth` put on the
 * request.
 */
module MessageRoutes {
  import opened Common
  import opened Collection
  import opened UserModel
  import opened MessageModel
  import opened ConversationModel
  import opened Store

  const ConversationNotFound := "Conversation not found"
  const NotAuthorizedToSend := "Not authorized to send messages in this conversation"
  const NotAuthorizedToView := "Not authorized to view this conversation"

  /**
   * Send: a body without `conversationId` makes `findById(undefined)` find
   * nothing (404). An id that is not an ObjectId makes the lookup throw,
   * and this route has no special case for that (500). An unknown
   * conversation gives 404, a caller who is not a participant 401. The
   * message is built at clock reading `t1` (a missing `content` is as empty);
   * when it fails validation or its id is taken, 500 and nothing is stored.
   * Otherwise it is stored, the conversation's `lastMessage` and `updatedAt`
   * are assigned (the latter at reading `t2`) and the conversation is saved
   * at reading `t3`; the answer is 201 with the message.
   */
  method Send(db: Db, me: Doc<User>, conversationId: Option<Id>, content: Option<string>, newId: Id,
              t1: Time, t2: Time, t3: Time, isValidId: Id -> bool)
    returns (r: Response<Doc<Message>>)
    requires db.Valid() && db.clock <= t1 <= t3
    modifies db
    ensures db.Valid()
    ensures db.users == old(db.users) && db.players == old(db.players)
    ensures conversationId.None? ==> r == Err(404, ConversationNotFound)
    ensures conversationId.Some? && !isValidId(conversationId.value) ==> r == Err(500, ServerError)
    ensures (conversationId.Some? && isValidId(conversationId.value)
             && Find(old(db.conversations), conversationId.value).None?) ==>
              r == Err(404, ConversationNotFound)
    ensures (conversationId.Some? && isValidId(conversationId.value)
             && Find(old(db.conversations), conversationId.value).Some?
             && !HasParticipant(Find(old(db.conversations), conversationId.value).value.body, me.id)) ==>
              r == Err(401, NotAuthorizedToSend)
    ensures (&& conversationId.Some? && isValidId(conversationId.value)
             && Find(old(db.conversations), conversationId.value).Some?
             && HasParticipant(Find(old(db.conversations), conversationId.value).value.body, me.id)) ==>
              (r.Ok? <==> ValidMessage(NewMessage(conversationId.value, me.id, Or(content, ""), t1))
                          && Find(old(db.messages), newId).None?)
    ensures r.Ok? ==>
              && r == Ok(201, Doc(newId, NewMessage(conversationId.value, me.id, Or(content, ""), t1)))
              && db.messages == old(db.messages) + [r.body]
              && db.conversations == Update(old(db.conversations), conversationId.value,
                                            RecordMessage(Find(old(db.conversations), conversationId.value).value.body, newId, t2, t3))
              && db.clock == t3
    ensures !r.Ok? ==> && db.conversations == old(db.conversations) && db.messages == old(db.messages)
                       && db.clock == old(db.clock)
    ensures r.Err? ==> r.status in {401, 404, 500}
  {
    if conversationId.None? {
      return Err(404, ConversationNotFound);
    }
    var cid := conversationId.value;
    if !isValidId(cid) {
      return Err(500, ServerError);
    }
    var found := Find(db.conversations, cid);
    if found.None? {
      return Err(404, ConversationNotFound);
    }
    if !HasParticipant(found.value.body, me.id) {
      return Err(401, NotAuthorizedToSend);
    }
    var m := NewMessage(cid, me.id, Or(content, ""), t1);
    if !ValidMessage(m) || Find(db.messages, newId).Some? {
      return Err(500, ServerError);
    }
    db.AppendMessage(newId, m, t2, t3);
    r := Ok(201, Doc(newId, m));
  }

  /** `Message.find({conversation: cid})`: the conversation's messages in the order they were stored. */
  function Thread(msgs: seq<Doc<Message>>, cid: Id): (r: seq<Doc<Message>>)
    ensures forall d :: d in r <==> d in msgs && d.body.conversation == cid
  {
    WhereMembers(msgs, (d: Doc<Message>) => d.body.conversation == cid);
    Where(msgs, (d: Doc<Message>) => d.body.conversation == cid)
  }

  /** `... .sort({timestamp: 1})`: the conversation's messages, oldest first. */
  function History(msgs: seq<Doc<Message>>, cid: Id): (r: seq<Doc<Message>>)
    ensures forall i, j :: 0 <= i < j < |r| ==> r[i].body.timestamp <= r[j].body.timestamp
    ensures multiset(r) == multiset(Thread(msgs, cid))
  {
    var r := SortBy(Thread(msgs, cid), Stamp);
    assert forall i, j :: 0 <= i < j < |r| ==> Stamp(r[i]) <= Stamp(r[j]);
    r
  }

  /**
   * Read the history: an id that is not an ObjectId and an unknown
   * conversation both give 404; a caller who is not a participant gets 401.
   */
  function GetMessages(convs: seq<Doc<Conversation>>, msgs: seq<Doc<Message>>, me: Id, cid: Id,
                       isValidId: Id -> bool): (r: Response<seq<Doc<Message>>>)
    ensures r.Ok? <==> isValidId(cid) && Find(convs, cid).Some? && HasParticipant(Find(convs, cid).value.body, me)
    ensures r.Ok? ==> r == Ok(200, History(msgs, cid))
    ensures !r.Ok? ==> r == Err(404, ConversationNotFound) || r == Err(401, NotAuthorizedToView)
    ensures r == Err(401, NotAuthorizedToView) <==>
            isValidId(cid) && Find(convs, cid).Some? && !HasParticipant(Find(convs, cid).value.body, me)
  {
    if !isValidId(cid) then Err(404, ConversationNotFound)
    else match Find(convs, cid)
      case None => Err(404, ConversationNotFound)
      case Some(c) =>
        if !HasParticipant(c.body, me) then Err(401, NotAuthorizedToView)
        else Ok(200, History(msgs, cid))
  }

  /** Messages are stored in timestamp order, so the sorted history is exactly the order they were sent in. */
  lemma HistoryIsSendOrder(msgs: seq<Doc<Message>>, clock: Time, cid: Id)
    requires MessagesOk(msgs, clock)
    ensures History(msgs, cid) == Thread(msgs, cid)
  {
    WhereSorted(msgs, (d: Doc<Message>) => d.body.conversation == cid, Stamp);
    SortByFixesSorted(Thread(msgs, cid), Stamp);
  }

  /** A message that is sent shows up at the end of its conversation's history, after everything that was there. */
  lemma HistoryAfterSend(msgs: seq<Doc<Message>>, clock: Time, mid: Id, m: Message, now: Time)
    requires MessagesOk(msgs, clock)
    requires Find(msgs, mid).None? && ValidMessage(m) && clock <= m.timestamp <= now
    ensures History(msgs + [Doc(mid, m)], m.conversation) == History(msgs, m.conversation) + [Doc(mid, m)]
  {
    AppendKeepsMessagesOk(msgs, clock, mid, m, now);
    HistoryIsSendOrder(msgs, clock, m.conversation);
    HistoryIsSendOrder(msgs + [Doc(mid, m)], now, m.conversation);
    WhereAppend(msgs, Doc(mid, m), (d: Doc<Message>) => d.body.conversation == m.conversation);
  }

  /** Sending into one conversation leaves every other conversation's history as it was. */
  lemma OtherHistoriesUnchanged(msgs: seq<Doc<Message>>, mid: Id, m: Message, cid: Id)
    requires cid != m.conversation
    ensures History(msgs + [Doc(mid, m)], cid) == History(msgs, cid)
  {
    var p := (d: Doc<Message>) => d.body.conversation == cid;
    WhereAppend(msgs, Doc(mid, m), p);
    assert !p(Doc(mid, m));
    assert Thread(msgs + [Doc(mid, m)], cid) == Thread(msgs, cid);
  }

  /** The last message of `cid` in storage order ends its thread. */
  lemma {:induction false} ThreadEndsWith(msgs: seq<Doc<Message>>, cid: Id, j: nat)
    requires j < |msgs| && msgs[j].body.conversation == cid
    requires forall k :: j < k < |msgs| ==> msgs[k].body.conversation != cid
    ensures var t := Thread(msgs, cid); t != [] && t[|t| - 1] == msgs[j]
  {
    var p := (d: Doc<Message>) => d.body.conversation == cid;
    assert msgs == (msgs[..j] + [msgs[j]]) + msgs[j + 1..];
    WhereConcat(msgs[..j] + [msgs[j]], msgs[j + 1..], p);
    WhereAppend(msgs[..j], msgs[j], p);
  }

  /**
   * Between requests a conversation's `lastMessage` is the newest entry of
   * its history, and it is unset exactly when the history is empty.
   */
  lemma LastMessageEndsHistory(convs: seq<Doc<Conversation>>, msgs: seq<Doc<Message>>, clock: Time, i: nat)
    requires ChatOk(convs, msgs, clock) && i < |convs|
    ensures var h := History(msgs, convs[i].id);
            && (convs[i].body.lastMessage.None? <==> h == [])
            && (convs[i].body.lastMessage.Some? ==> h != [] && h[|h| - 1].id == convs[i].body.lastMessage.value)
  {
    var cid := convs[i].id;
    HistoryIsSendOrder(msgs, clock, cid);
    assert IsLast(convs[i], msgs);
    var last := LastOf(msgs, cid);
    if last.Some? {
      ThreadEndsWith(msgs, cid, last.value);
    }
  }
}
