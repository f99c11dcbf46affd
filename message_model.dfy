/**
 * The stored message record and the defaults the schema fills in.
 * Identifiers are natural numbers; timestamps are ticks of the store's clock.
 */
module MessageModel {
  import opened Wrappers

  type UserId = nat
  type MessageId = nat

  /** A stored message: `sender` and `receiver` are always present (required fields). */
  datatype Message = Message(
    id: MessageId,
    sender: UserId,
    receiver: UserId,
    content: string,
    image: string,
    isRead: bool,
    createdAt: nat,
    updatedAt: nat)

  /** The fields handed to the schema's `create`, any of which may be missing. */
  datatype Draft = Draft(
    sender: Option<UserId>,
    receiver: Option<UserId>,
    content: Option<string>,
    image: Option<string>)

  /**
   * Schema validation and defaults: a draft without sender or receiver is
   * rejected; otherwise content and image default to "", isRead is false and
   * both timestamps are the creation time.
   */
  function Create(d: Draft, id: MessageId, now: nat): (r: Option<Message>)
    ensures r.Some? <==> d.sender.Some? && d.receiver.Some?
    ensures r.Some? ==>
      && r.value.id == id
      && r.value.sender == d.sender.value
      && r.value.receiver == d.receiver.value
      && (d.content.Some? ==> r.value.content == d.content.value)
      && (d.content.None? ==> r.value.content == "")
      && (d.image.Some? ==> r.value.image == d.image.value)
      && (d.image.None? ==> r.value.image == "")
      && !r.value.isRead
      && r.value.createdAt == now && r.value.updatedAt == now
  {
    if d.sender.None? || d.receiver.None? then None
    else Some(Message(id, d.sender.value, d.receiver.value, d.content.GetOr(""), d.image.GetOr(""), false, now, now))
  }
}
