/**
 * The Message schema: one message of a conversation, its sender, its
 * trimmed content of 1 to 2000 characters, its timestamp and read-by list.
 */
module MessageModel {
  import opened Common
  import opened Text

  const MaxContent := 2000

  datatype Message = Message(
    conversation: Id,
    sender: Id,
    content: string,
    timestamp: Time,
    readBy: seq<Id>)

  /**
   * `new Message({conversation, sender, content})` at clock reading `now`:
   * the content goes through the `trim` setter, the timestamp is the creation
   * time and nobody has read the message yet.
   */
  function NewMessage(conversation: Id, sender: Id, content: string, now: Time): (m: Message)
    ensures m.conversation == conversation && m.sender == sender
    ensures Trimmed(m.content) && |m.content| <= |content|
    ensures m.timestamp == now && m.readBy == []
  {
    TrimOnlyCutsSpace(content);
    Message(conversation, sender, Trim(content), now, [])
  }

  /**
   * The validators: `content` is required (so not empty) and at most 2000
   * characters. `conversation` and `sender` are required references; here
   * they are always present by construction.
   */
  predicate ValidMessage(m: Message)
  {
    1 <= |m.content| <= MaxContent
  }

  /** A new message saves exactly when its trimmed content has 1 to 2000 characters. */
  lemma NewMessageValidIff(conversation: Id, sender: Id, content: string, now: Time)
    ensures ValidMessage(NewMessage(conversation, sender, content, now)) <==> 1 <= |Trim(content)| <= MaxContent
  {
  }

  /** Content made only of whitespace (or nothing) never saves. */
  lemma BlankContentRejected(conversation: Id, sender: Id, content: string, now: Time)
    requires forall k :: 0 <= k < |content| ==> IsSpace(content[k])
    ensures !ValidMessage(NewMessage(conversation, sender, content, now))
  {
  }
}
