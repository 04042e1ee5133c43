/**
 * The conversation routes: open (find or create) a conversation with
 * another user, list the caller's conversations, and fetch one.
 * `me` is the user document `auth` put on the request.
 */
module ConversationRoutes {
  import opened Common
  import opened Collection
  import opened UserModel
  import opened ConversationModel
  import opened Store

  const ConversationNotFound := "Conversation not found"
  const NotAuthorizedToView := "Not authorized to view this conversation"

  /** `Conversation.findOne({participants: {$all: [a, b]}})`: the first conversation, in natural order, holding both. */
  function Existing(convs: seq<Doc<Conversation>>, a: Id, b: Id): (r: Option<Doc<Conversation>>)
    ensures r.Some? ==> r.value in convs && HasBoth(r.value.body, a, b)
    ensures r.None? ==> forall i :: 0 <= i < |convs| ==> !HasBoth(convs[i].body, a, b)
  {
    match FirstIndex(convs, (d: Doc<Conversation>) => HasBoth(d.body, a, b))
    case None => None
    case Some(i) => Some(convs[i])
  }

  /** Looking up the pair does not depend on who asks: A opening with B finds what B opening with A finds. */
  lemma ExistingSymmetric(convs: seq<Doc<Conversation>>, a: Id, b: Id)
    ensures Existing(convs, a, b) == Existing(convs, b, a)
  {
    FirstIndexSameFilter(convs, (d: Doc<Conversation>) => HasBoth(d.body, a, b),
                         (d: Doc<Conversation>) => HasBoth(d.body, b, a));
  }

  /** Once A has opened a new conversation with B, B opening with A gets that same conversation. */
  lemma OpenedIsFoundByOther(convs: seq<Doc<Conversation>>, a: Id, b: Id, d: Doc<Conversation>)
    requires Existing(convs, a, b).None?
    requires d.body.participants == [a, b]
    ensures Existing(convs + [d], b, a) == Some(d)
  {
    FirstIndexAppended(convs, d, (e: Doc<Conversation>) => HasBoth(e.body, b, a));
  }

  /**
   * Open: a participant id that is not an ObjectId makes the lookup throw
   * (500). An existing conversation holding both users is returned as is
   * (200). Otherwise a conversation `[me, participantId]` is created at clock
   * reading `t0` and saved at `t1` (201); a taken id makes the save fail (500).
   * No check is made that the other user exists, or that it differs from the
   * caller.
   */
  method Open(db: Db, me: Doc<User>, participantId: Id, newId: Id, t0: Time, t1: Time, isValidId: Id -> bool)
    returns (r: Response<Doc<Conversation>>)
    requires db.Valid() && db.clock <= t0 <= t1
    modifies db
    ensures db.Valid()
    ensures db.users == old(db.users) && db.players == old(db.players) && db.messages == old(db.messages)
    ensures !isValidId(participantId) ==> r == Err(500, ServerError)
    ensures isValidId(participantId) && Existing(old(db.conversations), me.id, participantId).Some? ==>
              r == Ok(200, Existing(old(db.conversations), me.id, participantId).value)
    ensures isValidId(participantId) && Existing(old(db.conversations), me.id, participantId).None? ==>
              if Find(old(db.conversations), newId).None? then
                && r == Ok(201, Doc(newId, PreSave(NewConversation([me.id, participantId], t0), t1)))
                && db.conversations == old(db.conversations) + [r.body]
                && db.clock == t1
              else r == Err(500, ServerError)
    ensures r.Ok? ==> HasBoth(r.body.body, me.id, participantId)
    ensures r.Code() != 201 ==> db.conversations == old(db.conversations) && db.clock == old(db.clock)
  {
    if !isValidId(participantId) {
      return Err(500, ServerError);
    }
    var found := Existing(db.conversations, me.id, participantId);
    if found.Some? {
      return Ok(200, found.value);
    }
    var c := PreSave(NewConversation([me.id, participantId], t0), t1);
    if Find(db.conversations, newId).Some? {
      return Err(500, ServerError);
    }
    NewPairOfTwo(db.conversations, me.id, participantId, c);
    db.InsertConversation(newId, c);
    r := Ok(201, Doc(newId, c));
  }

  /** The sort key of `sort({updatedAt: -1})`: most recent activity first. */
  function Recency(d: Doc<Conversation>): int
  {
    -d.body.updatedAt
  }

  /** `Conversation.find({participants: me})`: the conversations naming `me`, in natural order. */
  function Mine(convs: seq<Doc<Conversation>>, me: Id): (r: seq<Doc<Conversation>>)
    ensures forall d :: d in r <==> d in convs && HasParticipant(d.body, me)
  {
    WhereMembers(convs, (d: Doc<Conversation>) => HasParticipant(d.body, me));
    Where(convs, (d: Doc<Conversation>) => HasParticipant(d.body, me))
  }

  /**
   * List: the caller's conversations, most recently active first. The list is
   * a permutation of the conversations that name the caller.
   */
  function ListConversations(convs: seq<Doc<Conversation>>, me: Id): (r: seq<Doc<Conversation>>)
    ensures forall i, j :: 0 <= i < j < |r| ==> r[i].body.updatedAt >= r[j].body.updatedAt
    ensures multiset(r) == multiset(Mine(convs, me))
  {
    var r := SortBy(Mine(convs, me), Recency);
    assert forall i, j :: 0 <= i < j < |r| ==> Recency(r[i]) <= Recency(r[j]);
    r
  }

  /** A conversation is listed for `me` exactly when it is stored and names `me`. */
  lemma ListedIff(convs: seq<Doc<Conversation>>, me: Id)
    ensures forall d :: d in ListConversations(convs, me) <==> d in convs && HasParticipant(d.body, me)
  {
    SortByMembers(Mine(convs, me), Recency);
  }

  /**
   * Fetch one: an id that is not an ObjectId and an unknown id both give 404
   * "Conversation not found"; a caller who is not a participant gets 401.
   */
  function GetConversation(convs: seq<Doc<Conversation>>, me: Id, id: Id, isValidId: Id -> bool): (r: Response<Doc<Conversation>>)
    ensures r.Ok? <==> isValidId(id) && Find(convs, id).Some? && HasParticipant(Find(convs, id).value.body, me)
    ensures r.Ok? ==> r == Ok(200, Find(convs, id).value)
    ensures !r.Ok? ==> r == Err(404, ConversationNotFound) || r == Err(401, NotAuthorizedToView)
    ensures r == Err(401, NotAuthorizedToView) <==> isValidId(id) && Find(convs, id).Some? && !HasParticipant(Find(convs, id).value.body, me)
  {
    if !isValidId(id) then Err(404, ConversationNotFound)
    else match Find(convs, id)
      case None => Err(404, ConversationNotFound)
      case Some(c) =>
        if !HasParticipant(c.body, me) then Err(401, NotAuthorizedToView)
        else Ok(200, c)
  }

  /** Every conversation the list shows the caller can also be fetched by the caller. */
  lemma ListedCanBeFetched(convs: seq<Doc<Conversation>>, me: Id, d: Doc<Conversation>, isValidId: Id -> bool)
    requires UniqueIds(convs) && isValidId(d.id)
    requires d in ListConversations(convs, me)
    ensures GetConversation(convs, me, d.id, isValidId) == Ok(200, d)
  {
    ListedIff(convs, me);
    var k :| 0 <= k < |convs| && convs[k] == d;
    FindAt(convs, k);
  }
}
