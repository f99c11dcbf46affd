/**
 * The dashboard: the searchable friend sidebar, the chat pane's composer
 * and its send guard, the per-message dropdown with its delete and edit
 * options, and the `newMessage` socket handler that appends to the list
 * on screen. Requests to the server are recorded in `requests`; their
 * outcomes arrive as separate calls.
 */
module DashboardPage {
  import opened Wrappers
  import opened JsString
  import opened ClientTypes
  import opened FriendSearch
  import MessageModel
  import MessageController

  const SendFailedText := "Failed to send message"
  const NewMessageText := "New message received"
  const DeletedText := "Message deleted successfully"
  const DeleteFailedText := "Failed to delete message"
  const EditedText := "Message edited successfully"
  const EditFailedText := "Failed to edit message"

  /** The dropdown's buttons, in the order shown. */
  const Options: seq<string> := ["delete", "edit", "forward", "reply"]

  /**
   * handleSendMessage: a request goes out only when the message has a
   * non-whitespace character and a friend is selected. It carries the
   * message as typed, padding included, and an empty image.
   */
  function SendPayload(message: string, selected: Option<Friend>): (r: Option<SendRequest>)
    ensures r.Some? <==> !AllWhitespace(message) && selected.Some?
    ensures r.Some? ==> r.value.receiverId == selected.value.id && r.value.content == message && r.value.image == ""
  {
    BlankIffAllWhitespace(message);
    if Trim(message) != "" && selected.Some? then Some(SendRequest(selected.value.id, message, "")) else None
  }

  /** The send request handleSendMessage issues, if any. */
  function SendRequests(message: string, selected: Option<Friend>): seq<Request> {
    match SendPayload(message, selected)
    case Some(body) => [Send(body)]
    case None => []
  }

  /** Every request the composer sends passes the server's guard: it has a receiver and non-empty content. */
  lemma SendPayloadAccepted(message: string, selected: Option<Friend>, receiver: MessageModel.UserId)
    requires SendPayload(message, selected).Some?
    ensures var r := SendPayload(message, selected).value;
      !MessageController.Rejected(Some(receiver), Some(r.content), Some(r.image))
  {
  }

  /** The dropdown click: clicking the message whose menu is open closes it; any other click opens that message's menu. */
  function ToggleDropdown(prev: JsKey, clicked: JsKey): (r: JsKey)
    ensures clicked != Null ==> (r == Null <==> prev == clicked)
    ensures r != Null ==> r == clicked
  {
    if prev == clicked then Null else clicked
  }

  /** A second click on the same message undoes the first when it opened the menu. */
  lemma ToggleDropdownTwice(prev: JsKey, clicked: JsKey)
    requires clicked != Null && prev != clicked
    ensures ToggleDropdown(ToggleDropdown(prev, clicked), clicked) == Null
  {
  }

  /**
   * A message pushed by `newMessage` has no `_id`, so its key is
   * `undefined`; opening the menu of one such message opens it on every
   * other one too, since `undefined === undefined`.
   */
  lemma IdlessMenusOpenTogether(prev: JsKey, m1: ClientMessage, m2: ClientMessage)
    requires m1.oid.None? && m2.oid.None? && prev != Undefined
    ensures ToggleDropdown(prev, IdKey(m1)) == IdKey(m2)
  {
  }

  /** What a click on a dropdown option asks of the server. */
  datatype Request =
    | Send(body: SendRequest)
    | MarkRead(friendId: string)
    | Delete(messageId: JsKey)
    | Edit(messageId: JsKey, content: string)

  /**
   * A click on an option of message `m`'s menu: "delete" deletes it;
   * "edit" edits it only when the prompt returned a non-empty string
   * (`null` from Cancel is `None`); "forward" and "reply" do nothing.
   * An edit is what the page hands to the edit mutation; the hook it
   * goes through does not forward the id or the text as given.
   */
  function ChooseOption(option: string, m: ClientMessage, promptResult: Option<string>): (r: Option<Request>)
    ensures option == "delete" ==> r == Some(Delete(IdKey(m)))
    ensures option == "edit" ==> (r.Some? <==> Truthy(promptResult))
    ensures r.Some? && r.value.Edit? ==> option == "edit" && r.value == Edit(IdKey(m), promptResult.value) && r.value.content != ""
    ensures option != "delete" && option != "edit" ==> r == None
  {
    if option == "delete" then Some(Delete(IdKey(m)))
    else if option == "edit" then
      if Truthy(promptResult) then Some(Edit(IdKey(m), promptResult.value)) else None
    else None
  }

  /** Of the four buttons shown, exactly two ever reach the server. */
  lemma {:induction false} OnlyDeleteAndEditAct(m: ClientMessage, promptResult: Option<string>)
    ensures |set o | o in Options && ChooseOption(o, m, promptResult).Some?| == if Truthy(promptResult) then 2 else 1
  {
    var acting := set o | o in Options && ChooseOption(o, m, promptResult).Some?;
    assert "delete" in acting;
    assert "forward" !in acting && "reply" !in acting;
    if Truthy(promptResult) {
      assert acting == {"delete", "edit"};
    } else {
      assert acting == {"delete"};
    }
  }

  class Page {
    /** The signed-in user's friends, from the context. */
    var friends: seq<Friend>
    var searchTerm: string
    var selectedFriend: Option<Friend>
    /** The composer's text. */
    var message: string
    /**
     * `messages`: react-query's cached array (the fetched conversation plus
     * whatever `newMessage` pushed) once the query has data, and otherwise
     * the default `[]`, a new empty array on every render.
     */
    var messages: seq<ClientMessage>
    /** Whether the conversation query for the selected friend has data. */
    var loaded: bool
    /** `messageidDropdown`: the key of the message whose menu is open, or `null`. */
    var dropdown: JsKey
    var requests: seq<Request>
    var toasts: seq<Toast>
    var alerts: seq<string>

    constructor (friends: seq<Friend>)
      ensures this.friends == friends && searchTerm == "" && selectedFriend == None && message == ""
      ensures messages == [] && !loaded && dropdown == Null && requests == [] && toasts == [] && alerts == []
    {
      this.friends, searchTerm, selectedFriend, message := friends, "", None, "";
      messages, loaded, dropdown, requests, toasts, alerts := [], false, Null, [], [], [];
    }

    /** The sidebar's entries: the friends the search matches, and all of them, in order, for an empty search. */
    function VisibleFriends(): (r: seq<Friend>)
      reads this
      ensures forall f :: f in r <==> f in friends && MatchesSearch(f, searchTerm)
      ensures searchTerm == "" ==> r == friends
    {
      EmptySearchKeepsAll(friends);
      FilteredFriends(friends, searchTerm)
    }

    method SetSearchTerm(term: string)
      modifies this`searchTerm
      ensures searchTerm == term
    {
      searchTerm := term;
    }

    /**
     * A click on a sidebar entry selects that friend. When the selection
     * changes, the effect asks the server to mark the friend's messages
     * read, and the query for the new friend has no data yet, so the page
     * holds the default empty list until it settles.
     */
    method SelectFriend(f: Friend)
      requires f in VisibleFriends()
      modifies this`selectedFriend, this`requests, this`messages, this`loaded
      ensures selectedFriend == Some(f)
      ensures old(selectedFriend) == Some(f) ==>
        requests == old(requests) && messages == old(messages) && loaded == old(loaded)
      ensures old(selectedFriend) != Some(f) ==>
        requests == old(requests) + [MarkRead(f.id)] && messages == [] && !loaded
    {
      if selectedFriend != Some(f) {
        requests := requests + [MarkRead(f.id)];
        messages, loaded := [], false;
      }
      selectedFriend := Some(f);
    }

    /** The conversation query, enabled only while a friend is selected, settles with `ms`. */
    method OnMessagesLoaded(ms: seq<ClientMessage>)
      requires selectedFriend.Some?
      modifies this`messages, this`loaded
      ensures messages == ms && loaded
    {
      messages, loaded := ms, true;
    }

    /** Typing in the composer, shown only while a friend is selected. */
    method SetMessage(text: string)
      requires selectedFriend.Some?
      modifies this`message
      ensures message == text
    {
      message := text;
    }

    /** handleSendMessage: the guarded request, and nothing else changes. */
    method HandleSendMessage()
      modifies this`requests
      ensures requests == old(requests) + SendRequests(message, selectedFriend)
    {
      requests := requests + SendRequests(message, selectedFriend);
    }

    /** Enter takes the same path as the Send button; any other key does nothing. */
    method HandleKeyPress(key: string)
      modifies this`requests
      ensures requests == old(requests) + if key == "Enter" then SendRequests(message, selectedFriend) else []
    {
      if key == "Enter" {
        HandleSendMessage();
      }
    }

    /** A send settles: success clears the composer, failure raises an alert. */
    method OnSendResult(success: bool)
      modifies this`message, this`alerts
      ensures success ==> message == "" && alerts == old(alerts)
      ensures !success ==> message == old(message) && alerts == old(alerts) + [SendFailedText]
    {
      if success {
        message := "";
      } else {
        alerts := alerts + [SendFailedText];
      }
    }

    /** The dropdown icon of a message on screen. */
    method ClickDropdown(m: ClientMessage)
      requires selectedFriend.Some? && m in messages
      modifies this`dropdown
      ensures dropdown == ToggleDropdown(old(dropdown), IdKey(m))
    {
      dropdown := ToggleDropdown(dropdown, IdKey(m));
    }

    /** A button of the menu, which is drawn only under the message whose key it holds; the menu stays open. */
    method ClickOption(option: string, m: ClientMessage, promptResult: Option<string>)
      requires selectedFriend.Some? && m in messages && option in Options && dropdown == IdKey(m)
      modifies this`requests
      ensures requests == old(requests) + ChooseOption(option, m, promptResult).ToSeq()
    {
      requests := requests + ChooseOption(option, m, promptResult).ToSeq();
    }

    /** A delete or an edit settles with a toast of its own. */
    method OnDeleteResult(success: bool)
      modifies this`toasts
      ensures toasts == old(toasts) + [if success then ToastSuccess(DeletedText) else ToastError(DeleteFailedText)]
    {
      toasts := toasts + [if success then ToastSuccess(DeletedText) else ToastError(DeleteFailedText)];
    }

    method OnEditResult(success: bool)
      modifies this`toasts
      ensures toasts == old(toasts) + [if success then ToastSuccess(EditedText) else ToastError(EditFailedText)]
    {
      toasts := toasts + [if success then ToastSuccess(EditedText) else ToastError(EditFailedText)];
    }

    /**
     * The `newMessage` handler: a toast, whoever sent the message and
     * whichever friend is selected. The message is pushed onto `messages`;
     * it stays only when that is the query's cached array. While the query
     * has no data the push lands in the render's throwaway default `[]`,
     * and the list is unchanged.
     */
    method OnNewMessage(m: ClientMessage)
      modifies this`messages, this`toasts
      ensures messages == if old(loaded) then old(messages) + [m] else old(messages)
      ensures toasts == old(toasts) + [ToastSuccess(NewMessageText)]
    {
      toasts := toasts + [ToastSuccess(NewMessageText)];
      if loaded {
        messages := messages + [m];
      }
    }
  }
}
