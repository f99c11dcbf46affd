/**
 * The add-friend page: an email field with a validity flag, a submit that
 * either complains or issues one add-friend request, and the toasts shown
 * when the request settles. Requests are recorded in `requests` in the
 * order they are issued; the redirect to the dashboard is not modelled.
 */
module AddFriendPage {
  import opened Wrappers
  import opened EmailCheck
  import opened AddFriendRules
  import opened ClientTypes
  import UserController

  /** The self-add text as the page's source spells it: the emoji's UTF-8 bytes read as Windows-1252. */
  const GarbledSelfAddText := "You cannot add yourself as a friend \U{00F0}\U{0178}\U{02DC}\U{0160}"

  /** The page's error mapping as written, which differs from the modal's only in the self-add text. */
  function PageFriendlyError(message: Option<string>): (text: string)
    ensures text != ""
    ensures !Truthy(message) ==> text == DefaultFailure
  {
    if !Truthy(message) then DefaultFailure
    else if message.value == UserController.FriendNotFound then NoSuchUserText
    else if message.value == UserController.AlreadyAdded then AlreadyFriendText
    else if message.value == SelfAdd then GarbledSelfAddText
    else if message.value == UserController.EmailRequired then EmailMissingText
    else message.value
  }

  /** The page shows a garbled text for the self-add message, where the modal shows the emoji. */
  lemma GarbledSelfAdd()
    ensures PageFriendlyError(Some(SelfAdd)) != FriendlyError(Some(SelfAdd))
  {
    assert GarbledSelfAddText[36] != SelfAddText[36];
  }

  /** On every other input the page's mapping is the modal's. */
  lemma PageMappingElsewhere(message: Option<string>)
    requires message != Some(SelfAdd)
    ensures PageFriendlyError(message) == FriendlyError(message)
  {
  }

  /** The page's handleError: the page's own wording of the backend message as an error toast, nothing else. */
  function PageFailed(f: Form, message: Option<string>): (r: Form)
    ensures f.Tracks() ==> r.Tracks()
    ensures r.email == f.email && r.isValidEmail == f.isValidEmail && r.requests == f.requests
    ensures r.toasts == f.toasts + [ToastError(PageFriendlyError(message))]
  {
    f.(toasts := f.toasts + [ToastError(PageFriendlyError(message))])
  }

  /**
   * The page's failure handling is the modal's on every message except the
   * self-add one, where only the toast's text differs.
   */
  lemma PageFailedElsewhere(f: Form, message: Option<string>)
    ensures message != Some(SelfAdd) ==> PageFailed(f, message) == Failed(f, message)
    ensures message == Some(SelfAdd) ==>
      PageFailed(f, message) != Failed(f, message) && PageFailed(f, message).(toasts := []) == Failed(f, message).(toasts := [])
  {
    if message == Some(SelfAdd) {
      GarbledSelfAdd();
      assert PageFailed(f, message).toasts[|f.toasts|] != Failed(f, message).toasts[|f.toasts|];
    } else {
      PageMappingElsewhere(message);
    }
  }

  class Page {
    var email: string
    var isValidEmail: bool
    /** The emails sent to the add-friend endpoint, in order. */
    var requests: seq<string>
    var toasts: seq<Toast>

    function State(): Form
      reads this
    {
      Form(email, isValidEmail, requests, toasts)
    }

    ghost predicate Valid()
      reads this
    {
      State().Tracks()
    }

    constructor ()
      ensures Valid()
      ensures email == "" && isValidEmail && requests == [] && toasts == []
    {
      email, isValidEmail, requests, toasts := "", true, [], [];
    }

    method Set(f: Form)
      modifies this
      ensures State() == f
    {
      email, isValidEmail, requests, toasts := f.email, f.isValidEmail, f.requests, f.toasts;
    }

    method HandleEmailChange(newEmail: string)
      requires Valid()
      modifies this
      ensures Valid() && State() == Typed(old(State()), newEmail)
    {
      Set(Typed(State(), newEmail));
    }

    method HandleSubmit()
      requires Valid()
      modifies this
      ensures Valid() && State() == Submitted(old(State()))
    {
      Set(Submitted(State()));
    }

    /** Enter submits; any other key changes nothing. */
    method HandleKeyPress(key: string)
      requires Valid()
      modifies this
      ensures Valid()
      ensures State() == if key == "Enter" then Submitted(old(State())) else old(State())
    {
      if key == "Enter" {
        HandleSubmit();
      }
    }

    method OnSuccess(friendName: string)
      requires Valid()
      modifies this
      ensures Valid() && State() == Succeeded(old(State()), friendName)
    {
      Set(Succeeded(State(), friendName));
    }

    /** A failed request shows the page's own wording of the backend message (see GarbledSelfAdd). */
    method OnError(message: Option<string>)
      requires Valid()
      modifies this
      ensures Valid() && State() == PageFailed(old(State()), message)
    {
      Set(PageFailed(State(), message));
    }
  }
}
