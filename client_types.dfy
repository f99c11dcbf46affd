/** Records the React client passes around: friends, cached messages, send requests and toasts. */
module ClientTypes {
  import opened Wrappers

  /** An entry of the friend list; ids are the server's ids as JSON strings. */
  datatype Friend = Friend(id: string, name: string)

  /**
   * A message as the client holds it. A fetched message has `_id` (here `oid`);
   * a message pushed by the `newMessage` event has none. Any field may be missing.
   */
  datatype ClientMessage = ClientMessage(
    oid: Option<string>,
    id: Option<string>,
    content: Option<string>,
    text: Option<string>,
    image: Option<string>)

  /** The body of a send-message request. */
  datatype SendRequest = SendRequest(receiverId: string, content: string, image: string)

  /** A toast notification. */
  datatype Toast = ToastError(text: string) | ToastSuccess(text: string)

  /** A JavaScript value compared with `===` where it may be `null`, `undefined` or a string id. */
  datatype JsKey = Null | Undefined | Key(value: string)

  /** `msg._id` as a JavaScript value. */
  function IdKey(m: ClientMessage): JsKey {
    if m.oid.Some? then Key(m.oid.value) else Undefined
  }
}
