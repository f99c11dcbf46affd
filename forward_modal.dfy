/**
 * The forward dialog: a searchable friend list with a toggled selection,
 * and a forward action that sends every chosen message to every chosen
 * friend, one request after another, stopping at the first failure.
 * Whether the k-th request of a forward succeeds is the input `delivered`;
 * every call of the parent's `onClose` is counted in `closeRequests`.
 */
module ForwardModal {
  import opened Wrappers
  import opened JsString
  import opened Lists
  import opened ClientTypes

  const NoFriendSelected := "Please select at least one friend to forward to"
  const ForwardFailed := "Failed to forward messages"

  /** `prev.includes(id) ? prev.filter(x => x !== id) : [...prev, id]` */
  function Toggle(prev: seq<string>, id: string): (r: seq<string>)
    ensures id in r <==> id !in prev
    ensures forall x :: x != id ==> (x in r <==> x in prev)
    ensures id !in prev ==> r == prev + [id]
  {
    if id in prev then RemoveAll(prev, id) else prev + [id]
  }

  /** Toggling an unselected friend twice restores the selection exactly. */
  lemma ToggleTwice(prev: seq<string>, id: string)
    requires id !in prev
    ensures Toggle(Toggle(prev, id), id) == prev
  {
    FilterAppend(prev, [id], Differs(id));
    FilterKeepsAll(prev, Differs(id));
    assert Filter([id], Differs(id)) == [];
  }

  /** A selection built by toggling never names a friend twice. */
  lemma ToggleKeepsDistinct(prev: seq<string>, id: string)
    requires Distinct(prev)
    ensures Distinct(Toggle(prev, id))
  {
    if id in prev {
      FilterDistinct(prev, Differs(id));
    }
  }

  /**
   * A click on a row's checkbox as written: the checkbox's change handler
   * toggles the friend and the click then bubbles to the row, whose own
   * handler toggles the same friend again. The friend's membership never
   * changes.
   */
  function CheckboxClick(prev: seq<string>, id: string): (r: seq<string>)
    ensures id in r <==> id in prev
    ensures forall x :: x in r <==> x in prev
  {
    Toggle(Toggle(prev, id), id)
  }

  /** As written, ticking an unselected friend's checkbox leaves the selection exactly as it was. */
  lemma CheckboxCannotSelect(prev: seq<string>, id: string)
    requires id !in prev
    ensures id !in CheckboxClick(prev, id) && CheckboxClick(prev, id) == prev
  {
    ToggleTwice(prev, id);
  }

  /** `msg._id || msg.id`: the id when it is truthy, otherwise the other id, possibly undefined. */
  function KeyOf(m: ClientMessage): (k: JsKey)
    ensures Truthy(m.oid) ==> k == Key(m.oid.value)
    ensures !Truthy(m.oid) && m.id.Some? ==> k == Key(m.id.value)
    ensures !Truthy(m.oid) && m.id.None? ==> k == Undefined
  {
    if Truthy(m.oid) then Key(m.oid.value)
    else if m.id.Some? then Key(m.id.value)
    else Undefined
  }

  /** `selectedMessages.includes(key)`: an undefined key matches no selected id. */
  predicate IsSelected(m: ClientMessage, selectedMessages: seq<string>)
    ensures IsSelected(m, selectedMessages) <==>
      if Truthy(m.oid) then m.oid.value in selectedMessages else m.id.Some? && m.id.value in selectedMessages
  {
    KeyOf(m).Key? && KeyOf(m).value in selectedMessages
  }

  /** The messages to forward: the selected ones, in the conversation's order. */
  function MessagesToForward(messages: seq<ClientMessage>, selectedMessages: seq<string>): (r: seq<ClientMessage>)
    ensures |r| <= |messages|
    ensures forall m :: m in r <==> m in messages && IsSelected(m, selectedMessages)
  {
    Filter(messages, m => IsSelected(m, selectedMessages))
  }

  /** `${message.content || message.text}`: a missing text prints as "undefined". */
  function ForwardedText(m: ClientMessage): (t: string)
    ensures Truthy(m.content) ==> t == m.content.value
    ensures !Truthy(m.content) && m.text.Some? ==> t == m.text.value
    ensures !Truthy(m.content) && m.text.None? ==> t == "undefined"
  {
    if Truthy(m.content) then m.content.value
    else if m.text.Some? then m.text.value
    else "undefined"
  }

  /** The request that forwards `m` to `friendId`. */
  function ForwardRequest(friendId: string, m: ClientMessage): (r: SendRequest)
    ensures r.receiverId == friendId
    ensures r.content == "Forwarded: " + ForwardedText(m)
    ensures r.image == OrElse(m.image, "")
  {
    SendRequest(friendId, "Forwarded: " + ForwardedText(m), OrElse(m.image, ""))
  }

  /** The requests for one friend: every message, in order. */
  function Row(friendId: string, ms: seq<ClientMessage>): (r: seq<SendRequest>)
    ensures |r| == |ms|
    ensures forall j :: 0 <= j < |ms| ==> r[j] == ForwardRequest(friendId, ms[j])
  {
    seq(|ms|, j requires 0 <= j < |ms| => ForwardRequest(friendId, ms[j]))
  }

  /** Every (friend, message) pair, friend-major: the rows of the friends, one after another. */
  function Plan(friends: seq<string>, ms: seq<ClientMessage>): (r: seq<SendRequest>)
    ensures forall q :: q in r ==> q.receiverId in friends
  {
    if friends == [] then []
    else
      var init, last := friends[..|friends| - 1], friends[|friends| - 1];
      assert forall x :: x in init ==> x in friends;
      var row := Row(last, ms);
      assert forall q :: q in row ==> q.receiverId == last by {
        forall q | q in row
          ensures q.receiverId == last
        {
          var j :| 0 <= j < |row| && row[j] == q;
        }
      }
      Plan(init, ms) + row
  }

  predicate IsPrefix<T(==)>(a: seq<T>, b: seq<T>) {
    |a| <= |b| && a == b[..|a|]
  }

  /** The plan holds exactly |friends| * |ms| requests. */
  lemma {:induction false} PlanSize(friends: seq<string>, ms: seq<ClientMessage>)
    ensures |Plan(friends, ms)| == |friends| * |ms|
  {
    if friends != [] {
      PlanSize(friends[..|friends| - 1], ms);
      assert |friends| * |ms| == (|friends| - 1) * |ms| + |ms|;
    }
  }

  /** The plan for the first `i` friends is the start of the whole plan. */
  lemma {:induction false} PlanPrefix(friends: seq<string>, ms: seq<ClientMessage>, i: nat)
    requires i <= |friends|
    ensures IsPrefix(Plan(friends[..i], ms), Plan(friends, ms))
  {
    if i < |friends| {
      var init := friends[..|friends| - 1];
      PlanPrefix(init, ms, i);
      assert init[..i] == friends[..i];
    } else {
      assert friends[..i] == friends;
    }
  }

  /** Friend-major order: the request for friend `i` and message `j` sits at `i * |ms| + j`. */
  lemma {:induction false} PlanAt(friends: seq<string>, ms: seq<ClientMessage>, i: nat, j: nat)
    requires i < |friends| && j < |ms|
    ensures i * |ms| + j < |Plan(friends, ms)|
    ensures Plan(friends, ms)[i * |ms| + j] == ForwardRequest(friends[i], ms[j])
  {
    var init := friends[..|friends| - 1];
    PlanSize(init, ms);
    PlanSize(friends, ms);
    if i == |friends| - 1 {
      assert i * |ms| == |Plan(init, ms)|;
    } else {
      PlanAt(init, ms, i, j);
      assert init[i] == friends[i];
    }
  }

  /** "Messages forwarded to N friend(s)" */
  function SuccessText(n: nat): string {
    "Messages forwarded to " + DecimalString(n) + " friend" + (if n != 1 then "s" else "")
  }

  /**
   * The inner loop for one friend: its requests issued one after another,
   * the first of them being request number `start` of the forward, until
   * one fails or the row is done.
   */
  method ForwardRow(friendId: string, ms: seq<ClientMessage>, delivered: nat -> bool, start: nat)
    returns (issued: seq<SendRequest>, failed: bool)
    ensures IsPrefix(issued, Row(friendId, ms))
    ensures !failed ==> issued == Row(friendId, ms) && forall t :: start <= t < start + |issued| ==> delivered(t)
    ensures failed ==>
      |issued| > 0 && !delivered(start + |issued| - 1) && forall t :: start <= t < start + |issued| - 1 ==> delivered(t)
  {
    issued, failed := [], false;
    var j := 0;
    while j < |ms| && !failed
      invariant 0 <= j <= |ms| && |issued| == j
      invariant issued == Row(friendId, ms)[..j]
      invariant !failed ==> forall t :: start <= t < start + j ==> delivered(t)
      invariant failed ==> j > 0 && !delivered(start + j - 1) && forall t :: start <= t < start + j - 1 ==> delivered(t)
    {
      assert Row(friendId, ms)[..j + 1] == Row(friendId, ms)[..j] + [ForwardRequest(friendId, ms[j])];
      issued := issued + [ForwardRequest(friendId, ms[j])];
      failed := !delivered(start + j);
      j := j + 1;
    }
    if !failed {
      assert Row(friendId, ms)[..j] == Row(friendId, ms);
    }
  }

  /**
   * The outer loop, friend by friend. Without a failure every request of
   * the plan is issued; otherwise the issued requests are the plan's up to
   * and including the first that fails.
   */
  method ForwardAll(friends: seq<string>, ms: seq<ClientMessage>, delivered: nat -> bool)
    returns (issued: seq<SendRequest>, failed: bool)
    ensures IsPrefix(issued, Plan(friends, ms))
    ensures !failed ==> issued == Plan(friends, ms) && forall t :: 0 <= t < |issued| ==> delivered(t)
    ensures failed ==> |issued| > 0 && !delivered(|issued| - 1) && forall t :: 0 <= t < |issued| - 1 ==> delivered(t)
  {
    issued, failed := [], false;
    var i := 0;
    while i < |friends| && !failed
      invariant 0 <= i <= |friends|
      invariant !failed ==> issued == Plan(friends[..i], ms) && forall t :: 0 <= t < |issued| ==> delivered(t)
      invariant failed ==> IsPrefix(issued, Plan(friends, ms))
      invariant failed ==> |issued| > 0 && !delivered(|issued| - 1) && forall t :: 0 <= t < |issued| - 1 ==> delivered(t)
    {
      var row, rowFailed := ForwardRow(friends[i], ms, delivered, |issued|);
      assert friends[..i + 1][..i] == friends[..i];
      assert Plan(friends[..i + 1], ms) == Plan(friends[..i], ms) + Row(friends[i], ms);
      if rowFailed {
        PlanPrefix(friends, ms, i + 1);
        assert (Plan(friends[..i], ms) + Row(friends[i], ms))[..|issued| + |row|] == issued + row;
      }
      issued, failed := issued + row, rowFailed;
      i := i + 1;
    }
    if !failed {
      assert friends[..i] == friends;
    }
  }

  class Modal {
    var isOpen: bool
    var selectedFriends: seq<string>
    var searchTerm: string
    /** Every send request issued, in order, including one that failed. */
    var sent: seq<SendRequest>
    var toasts: seq<Toast>
    var closeRequests: nat

    /** The selection never holds a friend twice. */
    ghost predicate Valid()
      reads this
    {
      Distinct(selectedFriends)
    }

    constructor (isOpen: bool)
      ensures Valid()
      ensures this.isOpen == isOpen && selectedFriends == [] && searchTerm == ""
      ensures sent == [] && toasts == [] && closeRequests == 0
    {
      this.isOpen, selectedFriends, searchTerm := isOpen, [], "";
      sent, toasts, closeRequests := [], [], 0;
    }

    method SetSearchTerm(term: string)
      requires isOpen
      modifies this
      ensures searchTerm == term
      ensures isOpen == old(isOpen) && selectedFriends == old(selectedFriends)
      ensures sent == old(sent) && toasts == old(toasts) && closeRequests == old(closeRequests)
    {
      searchTerm := term;
    }

    /** toggleFriendSelection, called once per click: the friend's membership flips and nobody else's changes. */
    method ToggleFriendSelection(friendId: string)
      requires Valid() && isOpen
      modifies this
      ensures Valid()
      ensures selectedFriends == Toggle(old(selectedFriends), friendId)
      ensures isOpen == old(isOpen) && searchTerm == old(searchTerm)
      ensures sent == old(sent) && toasts == old(toasts) && closeRequests == old(closeRequests)
    {
      ToggleKeepsDistinct(selectedFriends, friendId);
      selectedFriends := Toggle(selectedFriends, friendId);
    }

    /**
     * handleForward: with nothing selected, an error toast and no request.
     * Otherwise the plan's requests are issued in order up to and including
     * the first that fails; if none fails, a success toast, a close request
     * and a cleared selection, and if one fails, an error toast and the
     * selection kept.
     */
    method HandleForward(messages: seq<ClientMessage>, selectedMessages: seq<string>, delivered: nat -> bool)
      requires Valid() && isOpen
      modifies this
      ensures Valid()
      ensures isOpen == old(isOpen) && searchTerm == old(searchTerm)
      ensures old(selectedFriends) == [] ==>
        && sent == old(sent) && selectedFriends == old(selectedFriends)
        && toasts == old(toasts) + [ToastError(NoFriendSelected)] && closeRequests == old(closeRequests)
      ensures |old(sent)| <= |sent| && sent[..|old(sent)|] == old(sent)
      ensures old(selectedFriends) != [] ==>
        var plan := Plan(old(selectedFriends), MessagesToForward(messages, selectedMessages));
        var issued := sent[|old(sent)|..];
        && IsPrefix(issued, plan)
        && if issued == plan && forall t :: 0 <= t < |plan| ==> delivered(t) then
          && selectedFriends == []
          && toasts == old(toasts) + [ToastSuccess(SuccessText(|old(selectedFriends)|))]
          && closeRequests == old(closeRequests) + 1
        else
          && |issued| > 0 && !delivered(|issued| - 1) && (forall t :: 0 <= t < |issued| - 1 ==> delivered(t))
          && selectedFriends == old(selectedFriends)
          && toasts == old(toasts) + [ToastError(ForwardFailed)]
          && closeRequests == old(closeRequests)
    {
      if |selectedFriends| == 0 {
        toasts := toasts + [ToastError(NoFriendSelected)];
        return;
      }
      var toForward := MessagesToForward(messages, selectedMessages);
      var issued, failed := ForwardAll(selectedFriends, toForward, delivered);
      sent := sent + issued;
      assert sent[|old(sent)|..] == issued && sent[..|old(sent)|] == old(sent);
      if failed {
        toasts := toasts + [ToastError(ForwardFailed)];
      } else {
        toasts := toasts + [ToastSuccess(SuccessText(|selectedFriends|))];
        closeRequests := closeRequests + 1;
        selectedFriends := [];
      }
    }

    /** The close and Cancel buttons call `onClose`; the selection is kept. */
    method Cancel()
      requires isOpen
      modifies this
      ensures closeRequests == old(closeRequests) + 1
      ensures isOpen == old(isOpen) && selectedFriends == old(selectedFriends) && searchTerm == old(searchTerm)
      ensures sent == old(sent) && toasts == old(toasts)
    {
      closeRequests := closeRequests + 1;
    }
  }
}
