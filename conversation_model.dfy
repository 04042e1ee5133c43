/**
 * The Conversation schema: the participants, an optional reference to the
 * last message, the creation and activity times, and the pre-save hook that
 * stamps `updatedAt` with the save time.
 */
module ConversationModel {
  import opened Common

  datatype Conversation = Conversation(
    participants: seq<Id>,
    lastMessage: Option<Id>,
    createdAt: Time,
    updatedAt: Time)

  /** `new Conversation({participants})` at clock reading `now`: no last message, both times at `now`. */
  function NewConversation(participants: seq<Id>, now: Time): (c: Conversation)
    ensures c.participants == participants && c.lastMessage.None?
    ensures c.createdAt == now && c.updatedAt == now
  {
    Conversation(participants, None, now, now)
  }

  /**
   * The pre-save hook at clock reading `now`: `updatedAt` becomes `now`
   * whatever was assigned to it before the save, and nothing else changes.
   */
  function PreSave(c: Conversation, now: Time): (r: Conversation)
    ensures r.updatedAt == now
    ensures r.participants == c.participants && r.lastMessage == c.lastMessage && r.createdAt == c.createdAt
  {
    c.(updatedAt := now)
  }

  /** A value assigned to `updatedAt` before a save is lost: only the save time survives. */
  lemma PreSaveOverridesAssignment(c: Conversation, stale: Time, now: Time)
    ensures PreSave(c.(updatedAt := stale), now) == PreSave(c, now)
  {
  }

  /**
   * The bookkeeping after a message is saved: `lastMessage` is pointed at the
   * new message, `updatedAt` is set to the clock reading `setAt`, and the
   * conversation is saved at clock reading `now`.
   */
  function RecordMessage(c: Conversation, message: Id, setAt: Time, now: Time): (r: Conversation)
    ensures r.lastMessage == Some(message) && r.updatedAt == now
    ensures r.participants == c.participants && r.createdAt == c.createdAt
  {
    PreSave(c.(lastMessage := Some(message), updatedAt := setAt), now)
  }

  predicate HasParticipant(c: Conversation, u: Id)
  {
    u in c.participants
  }

  /** The `$all: [a, b]` filter: both users are participants. */
  predicate HasBoth(c: Conversation, a: Id, b: Id)
  {
    a in c.participants && b in c.participants
  }

  /** The `$all` filter ignores the order of its list. */
  lemma HasBothSymmetric(c: Conversation, a: Id, b: Id)
    ensures HasBoth(c, a, b) == HasBoth(c, b, a)
  {
  }
}
