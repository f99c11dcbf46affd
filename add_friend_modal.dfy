/**
 * The add-friend modal: the page's field, flag and guards inside a dialog
 * whose visibility is its parent's `isOpen` prop. Every call of the
 * parent's `onClose` callback is counted in `closeRequests`. While closed
 * the modal renders nothing, so no input or key event reaches it; the
 * outcome of a request already in flight still arrives.
 */
module AddFriendModal {
  import opened Wrappers
  import opened AddFriendRules
  import opened ClientTypes

  class Modal {
    /** The parent's prop: while it is false the dialog returns null, so none of its handlers can run. */
    var isOpen: bool
    var email: string
    var isValidEmail: bool
    var requests: seq<string>
    var toasts: seq<Toast>
    var closeRequests: nat

    function State(): Form
      reads this
    {
      Form(email, isValidEmail, requests, toasts)
    }

    ghost predicate Valid()
      reads this
    {
      State().Tracks()
    }

    constructor (isOpen: bool)
      ensures Valid()
      ensures this.isOpen == isOpen && email == "" && isValidEmail
      ensures requests == [] && toasts == [] && closeRequests == 0
    {
      this.isOpen, email, isValidEmail := isOpen, "", true;
      requests, toasts, closeRequests := [], [], 0;
    }

    method Set(f: Form)
      modifies this
      ensures State() == f && isOpen == old(isOpen) && closeRequests == old(closeRequests)
    {
      email, isValidEmail, requests, toasts := f.email, f.isValidEmail, f.requests, f.toasts;
    }

    method HandleEmailChange(newEmail: string)
      requires Valid() && isOpen
      modifies this
      ensures Valid() && State() == Typed(old(State()), newEmail)
      ensures isOpen == old(isOpen) && closeRequests == old(closeRequests)
    {
      Set(Typed(State(), newEmail));
    }

    method HandleSubmit()
      requires Valid() && isOpen
      modifies this
      ensures Valid() && State() == Submitted(old(State()))
      ensures isOpen == old(isOpen) && closeRequests == old(closeRequests)
    {
      Set(Submitted(State()));
    }

    /**
     * The handler as written: Enter submits, Escape asks the parent to
     * close, any other key does nothing. It is attached to `onKeyPress`,
     * which browsers do not fire for Escape, so its Escape branch is the
     * handler's text rather than something a user can trigger.
     */
    method HandleKeyPress(key: string)
      requires Valid() && isOpen
      modifies this
      ensures Valid() && isOpen == old(isOpen)
      ensures State() == if key == "Enter" then Submitted(old(State())) else old(State())
      ensures closeRequests == old(closeRequests) + if key == "Escape" then 1 else 0
    {
      if key == "Enter" {
        HandleSubmit();
      }
      if key == "Escape" {
        closeRequests := closeRequests + 1;
      }
    }

    /** The header's close button and the Cancel button call `onClose`. */
    method Cancel()
      requires isOpen
      modifies this
      ensures State() == old(State()) && isOpen == old(isOpen)
      ensures closeRequests == old(closeRequests) + 1
    {
      closeRequests := closeRequests + 1;
    }

    /** A successful request: as on the page, and the parent is also asked to close. */
    method OnSuccess(friendName: string)
      requires Valid()
      modifies this
      ensures Valid() && State() == Succeeded(old(State()), friendName)
      ensures isOpen == old(isOpen) && closeRequests == old(closeRequests) + 1
    {
      Set(Succeeded(State(), friendName));
      closeRequests := closeRequests + 1;
    }

    /** A failed request: an error toast; the modal stays as it is. */
    method OnError(message: Option<string>)
      requires Valid()
      modifies this
      ensures Valid() && State() == Failed(old(State()), message)
      ensures isOpen == old(isOpen) && closeRequests == old(closeRequests)
    {
      Set(Failed(State(), message));
    }
  }
}
