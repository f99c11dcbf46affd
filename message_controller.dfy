/**
 * The message ledger behind the five message handlers: send, history,
 * mark-read, delete by id and edit by id. The collection is kept in
 * insertion order; socket emits are recorded in an outbox.
 * The authenticated caller is an input to every handler.
 */
module MessageController {
  import opened Wrappers
  import opened MessageModel

  /** A socket emit: `newMessage` to the receiver's room, with the request's own content and image. */
  datatype Event = NewMessage(
    room: UserId,
    sender: UserId,
    receiver: UserId,
    content: Option<string>,
    image: Option<string>,
    time: nat,
    isRead: bool)

  /** The JSON body of a reply. */
  datatype Body =
    | Messages(messages: seq<Message>)
    | MessageCreated(message: Message)
    | Ack
    | Outcome(success: bool, text: string)
    | MessageUpdated(text: string, updated: Message)

  datatype Reply = Reply(status: nat, body: Body)

  const MissingFields := "Receiver ID and content or image are required"
  const NotFound := "Message not found"
  const DeletedText := "Message deleted successfully"
  const UpdatedText := "Message updated successfully"

  // ---------------------------------------------------------------------
  // Specification functions over the collection
  // ---------------------------------------------------------------------

  /** `m` goes from `a` to `b` or from `b` to `a`. */
  predicate InPair(m: Message, a: UserId, b: UserId) {
    (m.sender == a && m.receiver == b) || (m.sender == b && m.receiver == a)
  }

  /** Strictly ascending by creation time. */
  predicate Ascending(ms: seq<Message>) {
    forall i, j :: 0 <= i < j < |ms| ==> ms[i].createdAt < ms[j].createdAt
  }

  predicate UniqueIds(ms: seq<Message>) {
    forall i, j :: 0 <= i < j < |ms| ==> ms[i].id != ms[j].id
  }

  /** The messages between `a` and `b`, in stored order. */
  function Conversation(ms: seq<Message>, a: UserId, b: UserId): (r: seq<Message>)
    ensures |r| <= |ms|
    ensures forall m :: m in r <==> m in ms && InPair(m, a, b)
  {
    if ms == [] then []
    else if InPair(ms[0], a, b) then [ms[0]] + Conversation(ms[1..], a, b)
    else Conversation(ms[1..], a, b)
  }

  /** An unread message from `sender` to `reader`: what the mark-read filter matches. */
  predicate Unread(m: Message, sender: UserId, reader: UserId) {
    m.sender == sender && m.receiver == reader && !m.isRead
  }

  /** The collection after `updateMany({sender, receiver, isRead: false}, {isRead: true})` at time `now`. */
  function MarkRead(ms: seq<Message>, sender: UserId, reader: UserId, now: nat): (r: seq<Message>)
    ensures |r| == |ms|
    ensures forall i :: 0 <= i < |ms| ==>
      r[i].id == ms[i].id && r[i].createdAt == ms[i].createdAt && r[i].content == ms[i].content && !Unread(r[i], sender, reader)
  {
    seq(|ms|, i requires 0 <= i < |ms| =>
      if Unread(ms[i], sender, reader) then ms[i].(isRead := true, updatedAt := now) else ms[i])
  }

  /** The position of the message with identifier `id`, if any. */
  function Locate(ms: seq<Message>, id: MessageId): (r: Option<nat>)
    ensures r.Some? ==> r.value < |ms| && ms[r.value].id == id
    ensures r.None? <==> forall m :: m in ms ==> m.id != id
  {
    if ms == [] then None
    else if ms[0].id == id then Some(0)
    else match Locate(ms[1..], id)
      case None => None
      case Some(k) => Some(k + 1)
  }

  /** The collection with every message carrying `id` removed. */
  function Without(ms: seq<Message>, id: MessageId): (r: seq<Message>)
    ensures forall m :: m in r <==> m in ms && m.id != id
  {
    if ms == [] then []
    else if ms[0].id == id then Without(ms[1..], id)
    else [ms[0]] + Without(ms[1..], id)
  }

  /** The collection after `findByIdAndUpdate(id, {content})` at time `now`; an absent content leaves the text as it was. */
  function EditContent(ms: seq<Message>, id: MessageId, content: Option<string>, now: nat): (r: seq<Message>)
    ensures |r| == |ms|
    ensures forall i :: 0 <= i < |ms| ==>
      r[i].id == ms[i].id && r[i].createdAt == ms[i].createdAt && r[i].isRead == ms[i].isRead
    ensures forall i :: 0 <= i < |ms| && ms[i].id == id && content.Some? ==> r[i].content == content.value
  {
    seq(|ms|, i requires 0 <= i < |ms| =>
      if ms[i].id == id then ms[i].(content := content.GetOr(ms[i].content), updatedAt := now) else ms[i])
  }

  /** The send guard: no receiver, or neither content nor image is truthy. */
  predicate Rejected(receiverId: Option<UserId>, content: Option<string>, image: Option<string>) {
    receiverId.None? || (!Truthy(content) && !Truthy(image))
  }

  /** Ascending, unique ids, and every id and time behind the store's counters. */
  ghost predicate WellFormed(ms: seq<Message>, clock: nat, nextId: MessageId) {
    && Ascending(ms)
    && UniqueIds(ms)
    && forall i :: 0 <= i < |ms| ==> ms[i].createdAt <= ms[i].updatedAt < clock && ms[i].id < nextId
  }

  // ---------------------------------------------------------------------
  // The ledger
  // ---------------------------------------------------------------------

  class Ledger {
    var messages: seq<Message>
    var outbox: seq<Event>
    var clock: nat
    var nextId: MessageId

    /** Stored order is creation order, ids are unique and fresh ids and times lie ahead. */
    ghost predicate Valid()
      reads this
    {
      WellFormed(messages, clock, nextId)
    }

    constructor ()
      ensures Valid()
      ensures messages == [] && outbox == []
    {
      messages, outbox, clock, nextId := [], [], 0, 0;
    }

    /** getMessages: the conversation with `friendId`, ascending by creation time; an empty one is a success. */
    method GetMessages(caller: UserId, friendId: UserId) returns (r: Reply)
      requires Valid()
      ensures r.status == 200 && r.body.Messages?
      ensures forall m :: m in r.body.messages <==> m in messages && InPair(m, caller, friendId)
      ensures Ascending(r.body.messages)
      ensures r.body.messages == Conversation(messages, caller, friendId)
    {
      ConversationAscending(messages, caller, friendId);
      r := Reply(200, Messages(Conversation(messages, caller, friendId)));
    }

    /** sendMessage: validate, create with the schema's defaults, then emit `newMessage` to the receiver's room. */
    method SendMessage(caller: UserId, receiverId: Option<UserId>, content: Option<string>, image: Option<string>)
      returns (r: Reply)
      requires Valid()
      modifies this
      ensures Valid()
      ensures Rejected(receiverId, content, image) ==>
        && r == Reply(400, Outcome(false, MissingFields))
        && messages == old(messages) && outbox == old(outbox)
      ensures !Rejected(receiverId, content, image) ==>
        var m := Create(Draft(Some(caller), receiverId, content, image), old(nextId), old(clock)).value;
        && messages == old(messages) + [m]
        && outbox == old(outbox) + [NewMessage(receiverId.value, caller, receiverId.value, content, image, m.createdAt, false)]
        && r == Reply(201, MessageCreated(m))
    {
      if Rejected(receiverId, content, image) {
        return Reply(400, Outcome(false, MissingFields));
      }
      var m := Create(Draft(Some(caller), receiverId, content, image), nextId, clock).value;
      messages := messages + [m];
      outbox := outbox + [NewMessage(receiverId.value, caller, receiverId.value, content, image, m.createdAt, false)];
      clock, nextId := clock + 1, nextId + 1;
      r := Reply(201, MessageCreated(m));
    }

    /** markMessagesAsRead: flip the caller's unread messages from `friendId`; always a success. */
    method MarkMessagesAsRead(caller: UserId, friendId: UserId) returns (r: Reply)
      requires Valid()
      modifies this
      ensures Valid()
      ensures messages == MarkRead(old(messages), friendId, caller, old(clock))
      ensures outbox == old(outbox)
      ensures r == Reply(200, Ack)
    {
      messages := MarkRead(messages, friendId, caller, clock);
      clock := clock + 1;
      r := Reply(200, Ack);
    }

    /** deleteMessage: 404 for an absent id, otherwise remove that message; ownership is not checked. */
    method DeleteMessage(messageId: MessageId) returns (r: Reply)
      requires Valid()
      modifies this
      ensures Valid()
      ensures outbox == old(outbox)
      ensures Locate(old(messages), messageId).None? ==>
        r == Reply(404, Outcome(false, NotFound)) && messages == old(messages)
      ensures Locate(old(messages), messageId).Some? ==>
        r == Reply(200, Outcome(true, DeletedText)) && messages == Without(old(messages), messageId)
    {
      var k := Locate(messages, messageId);
      if k.None? {
        return Reply(404, Outcome(false, NotFound));
      }
      RemoveAtIsWithout(messages, k.value);
      SpliceWellFormed(messages, k.value, clock, nextId);
      messages := messages[..k.value] + messages[k.value + 1..];
      r := Reply(200, Outcome(true, DeletedText));
    }

    /** editMessage: 404 for an absent id, otherwise replace the content and return the updated message. */
    method EditMessage(messageId: MessageId, content: Option<string>) returns (r: Reply)
      requires Valid()
      modifies this
      ensures Valid()
      ensures outbox == old(outbox)
      ensures Locate(old(messages), messageId).None? ==>
        r == Reply(404, Outcome(false, NotFound)) && messages == old(messages)
      ensures Locate(old(messages), messageId).Some? ==>
        var was := old(messages)[Locate(old(messages), messageId).value];
        && messages == EditContent(old(messages), messageId, content, old(clock))
        && r == Reply(200, MessageUpdated(UpdatedText,
                 was.(content := content.GetOr(was.content), updatedAt := old(clock))))
    {
      var k := Locate(messages, messageId);
      if k.None? {
        return Reply(404, Outcome(false, NotFound));
      }
      var m := messages[k.value];
      var updated := m.(content := content.GetOr(m.content), updatedAt := clock);
      messages := messages[k.value := updated];
      clock := clock + 1;
      r := Reply(200, MessageUpdated(UpdatedText, updated));
    }
  }

  // ---------------------------------------------------------------------
  // Properties
  // ---------------------------------------------------------------------

  /** A conversation taken from an ascending collection is ascending. */
  lemma {:induction false} ConversationAscending(ms: seq<Message>, a: UserId, b: UserId)
    requires Ascending(ms)
    ensures Ascending(Conversation(ms, a, b))
  {
    if ms != [] {
      ConversationAscending(ms[1..], a, b);
      var rest := Conversation(ms[1..], a, b);
      forall m | m in rest
        ensures ms[0].createdAt < m.createdAt
      {
        var j :| 0 <= j < |ms[1..]| && ms[1..][j] == m;
        assert ms[j + 1] == m;
      }
    }
  }

  /**
   * The query's sort is the stored order: every ascending arrangement of
   * exactly the pair's messages is the conversation itself.
   */
  lemma {:induction false} SortedHistoryIsConversation(ms: seq<Message>, a: UserId, b: UserId, sorted: seq<Message>)
    requires Ascending(ms) && Ascending(sorted)
    requires forall m :: m in sorted <==> m in ms && InPair(m, a, b)
    ensures sorted == Conversation(ms, a, b)
  {
    ConversationAscending(ms, a, b);
    AscendingSameMembers(sorted, Conversation(ms, a, b));
  }

  lemma {:induction false} AscendingSameMembers(s: seq<Message>, t: seq<Message>)
    requires Ascending(s) && Ascending(t)
    requires forall m :: m in s <==> m in t
    ensures s == t
  {
    if s == [] {
      FirstIsMember(t);
    } else {
      assert t != [] by { assert s[0] in t; }
      SameHead(s, t);
      forall m
        ensures m in s[1..] <==> m in t[1..]
      {
        if m in s[1..] { InTail(s, m); InTail(t, m); }
        if m in t[1..] { InTail(t, m); InTail(s, m); }
      }
      AscendingSameMembers(s[1..], t[1..]);
      assert s == [s[0]] + s[1..] && t == [t[0]] + t[1..];
    }
  }

  lemma FirstIsMember(t: seq<Message>)
    ensures t != [] ==> t[0] in t
  {
  }

  /** Two ascending arrangements of the same messages start alike. */
  lemma SameHead(s: seq<Message>, t: seq<Message>)
    requires Ascending(s) && Ascending(t) && s != [] && t != []
    requires forall m :: m in s <==> m in t
    ensures s[0] == t[0]
  {
    assert s[0] in t && t[0] in s;
    var i :| 0 <= i < |t| && t[i] == s[0];
    var j :| 0 <= j < |s| && s[j] == t[0];
    assert s[0].createdAt <= t[0].createdAt;
    assert t[0].createdAt <= s[0].createdAt;
  }

  /** In an ascending sequence, a member is in the tail exactly when it comes strictly after the head. */
  lemma InTail(s: seq<Message>, m: Message)
    requires Ascending(s) && s != []
    ensures m in s[1..] <==> m in s && s[0].createdAt < m.createdAt
  {
    if m in s[1..] {
      var p :| 0 <= p < |s[1..]| && s[1..][p] == m;
      assert s[p + 1] == m;
    }
    if m in s && s[0].createdAt < m.createdAt {
      var q :| 0 <= q < |s| && s[q] == m;
      assert q != 0;
      assert s[1..][q - 1] == m;
    }
  }

  /** The conversation is the same from either side. */
  lemma {:induction false} ConversationSymmetric(ms: seq<Message>, a: UserId, b: UserId)
    ensures Conversation(ms, a, b) == Conversation(ms, b, a)
  {
    if ms != [] {
      ConversationSymmetric(ms[1..], a, b);
    }
  }

  /** A message appended to the collection shows up at the end of its pair's conversation and nowhere else. */
  lemma {:induction false} ConversationAppend(ms: seq<Message>, m: Message, a: UserId, b: UserId)
    ensures Conversation(ms + [m], a, b) ==
            Conversation(ms, a, b) + (if InPair(m, a, b) then [m] else [])
  {
    if ms == [] {
      assert [m][1..] == [];
    } else {
      assert (ms + [m])[1..] == ms[1..] + [m];
      ConversationAppend(ms[1..], m, a, b);
    }
  }

  /** Removing the message at `k` is removing its id, because ids are unique. */
  lemma {:induction false} RemoveAtIsWithout(ms: seq<Message>, k: nat)
    requires UniqueIds(ms) && k < |ms|
    ensures ms[..k] + ms[k + 1..] == Without(ms, ms[k].id)
  {
    var id := ms[k].id;
    var tail := ms[1..];
    if k == 0 {
      UniqueRest(ms);
      WithoutAbsent(tail, id);
      assert ms[..0] + ms[1..] == tail;
    } else {
      UniqueTail(ms);
      assert tail[k - 1] == ms[k];
      RemoveAtIsWithout(tail, k - 1);
      assert ms[0].id != id;
      SpliceCons(ms, k);
    }
  }

  /** Cutting one message out keeps the collection well formed. */
  lemma SpliceWellFormed(ms: seq<Message>, k: nat, clock: nat, nextId: MessageId)
    requires k < |ms| && WellFormed(ms, clock, nextId)
    ensures WellFormed(ms[..k] + ms[k + 1..], clock, nextId)
  {
    var r := ms[..k] + ms[k + 1..];
    forall i | 0 <= i < |r|
      ensures r[i] == ms[if i < k then i else i + 1]
    {
    }
  }

  /** With unique ids, no later message shares the first one's id. */
  lemma UniqueRest(ms: seq<Message>)
    requires UniqueIds(ms) && ms != []
    ensures forall i :: 0 <= i < |ms[1..]| ==> ms[1..][i].id != ms[0].id
  {
    forall i | 0 <= i < |ms[1..]|
      ensures ms[1..][i].id != ms[0].id
    {
      assert ms[1..][i] == ms[i + 1];
    }
  }

  lemma UniqueTail(ms: seq<Message>)
    requires UniqueIds(ms) && ms != []
    ensures UniqueIds(ms[1..])
  {
    var tail := ms[1..];
    forall i, j | 0 <= i < j < |tail|
      ensures tail[i].id != tail[j].id
    {
      assert tail[i] == ms[i + 1] && tail[j] == ms[j + 1];
    }
  }

  /** Cutting out position `k > 0` keeps the head in front of the tail with position `k - 1` cut out. */
  lemma SpliceCons(ms: seq<Message>, k: nat)
    requires 0 < k < |ms|
    ensures ms[..k] + ms[k + 1..] == [ms[0]] + (ms[1..][..k - 1] + ms[1..][k..])
  {
    assert ms[1..][..k - 1] == ms[1..k];
    assert ms[1..][k..] == ms[k + 1..];
    assert ms[..k] == [ms[0]] + ms[1..k];
  }

  /** Removing an id that is absent changes nothing. */
  lemma {:induction false} WithoutAbsent(ms: seq<Message>, id: MessageId)
    requires forall i :: 0 <= i < |ms| ==> ms[i].id != id
    ensures Without(ms, id) == ms
  {
    if ms != [] {
      WithoutAbsent(ms[1..], id);
      assert ms == [ms[0]] + ms[1..];
    }
  }

  /** After a delete the id is gone, so deleting it again is a 404. */
  lemma DeleteTwiceNotFound(ms: seq<Message>, id: MessageId)
    ensures Locate(Without(ms, id), id).None?
  {
  }

  /** After mark-read no unread message from `sender` to `reader` remains. */
  lemma MarkReadLeavesNoneUnread(ms: seq<Message>, sender: UserId, reader: UserId, now: nat)
    ensures forall m :: m in MarkRead(ms, sender, reader, now) ==> !Unread(m, sender, reader)
  {
  }

  /** Mark-read touches only unread messages from `sender` to `reader`; the reverse direction is untouched. */
  lemma MarkReadFrame(ms: seq<Message>, sender: UserId, reader: UserId, now: nat, i: nat)
    requires i < |ms|
    ensures |MarkRead(ms, sender, reader, now)| == |ms|
    ensures !Unread(ms[i], sender, reader) ==> MarkRead(ms, sender, reader, now)[i] == ms[i]
    ensures Unread(ms[i], sender, reader) ==>
      MarkRead(ms, sender, reader, now)[i] == ms[i].(isRead := true, updatedAt := now)
  {
  }

  /** A second mark-read changes nothing, whatever its time. */
  lemma MarkReadIdempotent(ms: seq<Message>, sender: UserId, reader: UserId, now: nat, later: nat)
    ensures MarkRead(MarkRead(ms, sender, reader, now), sender, reader, later) == MarkRead(ms, sender, reader, now)
  {
  }

  /**
   * Edit of a unique id: exactly that message changes, and only its content
   * and modification time; sender, receiver, image, read flag and creation time stay.
   */
  lemma EditOnlyContent(ms: seq<Message>, id: MessageId, content: Option<string>, now: nat, i: nat)
    requires i < |ms|
    ensures |EditContent(ms, id, content, now)| == |ms|
    ensures ms[i].id != id ==> EditContent(ms, id, content, now)[i] == ms[i]
    ensures ms[i].id == id ==>
      var e := EditContent(ms, id, content, now)[i];
      && e.id == id && e.sender == ms[i].sender && e.receiver == ms[i].receiver
      && e.image == ms[i].image && e.isRead == ms[i].isRead && e.createdAt == ms[i].createdAt
      && (content.Some? ==> e.content == content.value)
  {
  }

  /** Sending and then reading the history: the new unread message is the last entry of the conversation. */
  lemma SendThenHistory(ms: seq<Message>, m: Message)
    requires !m.isRead
    ensures var h := Conversation(ms + [m], m.sender, m.receiver);
      |h| > 0 && h[|h| - 1] == m && !h[|h| - 1].isRead
  {
    ConversationAppend(ms, m, m.sender, m.receiver);
  }
}
