/**
 * The rules the add-friend page and the add-friend modal share: the
 * validity flag kept while typing, the two guards of a submit, the
 * submit button's disabled state, and the friendly text shown for a
 * backend failure.
 */
module AddFriendRules {
  import opened Wrappers
  import opened JsString
  import opened EmailCheck
  import opened ClientTypes
  import UserController

  const EnterEmail := "Please enter an email address"
  const InvalidEmail := "Please enter a valid email address"
  const DefaultFailure := "Failed to add friend. Please try again."

  /** Backend messages the mapping knows, and what it shows instead. */
  const SelfAdd := "You cannot add yourself as a friend"
  const NoSuchUserText := "No user found with this email address. Please check and try again."
  const AlreadyFriendText := "This user is already in your friend list!"
  const SelfAddText := "You cannot add yourself as a friend \U{1F60A}"
  const EmailMissingText := "Please enter an email address."

  /** `validateEmail(newEmail) || newEmail === ""`: the flag that colours the field while typing. */
  function ValidAfterInput(newEmail: string): (valid: bool)
    ensures valid <==> MatchesPattern(newEmail) || newEmail == ""
  {
    ValidateEmailIsPattern(newEmail);
    ValidateEmail(newEmail) || newEmail == ""
  }

  /** What a submit does: complain about a blank field, complain about a malformed one, or request. */
  datatype Guard = Blank | Malformed | Request(email: string)

  /**
   * handleSubmit's guards: a whitespace-only field is reported first, a
   * string the pattern rejects second, and otherwise the trimmed email is
   * requested; it is always the text exactly as typed.
   */
  function SubmitGuard(email: string): (g: Guard)
    ensures g == Blank <==> AllWhitespace(email)
    ensures g == Malformed <==> !AllWhitespace(email) && !MatchesPattern(email)
    ensures g.Request? ==> MatchesPattern(email) && g.email == email
  {
    BlankIffAllWhitespace(email);
    ValidateEmailIsPattern(email);
    if Trim(email) == "" then Blank
    else if !ValidateEmail(email) then Malformed
    else
      ValidEmailIsTrimmed(email);
      Request(Trim(email))
  }

  /** The form's state: the field, its validity flag, the requests issued and the toasts shown. */
  datatype Form = Form(email: string, isValidEmail: bool, requests: seq<string>, toasts: seq<Toast>) {
    /** Once something is typed, the flag is up exactly when it is an email. */
    ghost predicate Tracks() {
      FlagTracksEmail(email, isValidEmail)
    }
  }

  /** handleEmailChange: the field takes the new text and the flag is recomputed from it. */
  function Typed(f: Form, newEmail: string): (r: Form)
    ensures r.Tracks()
    ensures r.email == newEmail && (r.isValidEmail <==> MatchesPattern(newEmail) || newEmail == "")
    ensures r.requests == f.requests && r.toasts == f.toasts
  {
    f.(email := newEmail, isValidEmail := ValidAfterInput(newEmail))
  }

  /**
   * handleSubmit: a blank field gets an error toast and nothing else; a
   * string the pattern rejects gets another and lowers the flag; an email
   * the pattern accepts is requested exactly as typed. The field itself is
   * never changed and the flag keeps tracking it.
   */
  function Submitted(f: Form): (r: Form)
    ensures f.Tracks() ==> r.Tracks()
    ensures AllWhitespace(f.email) ==> r == f.(toasts := f.toasts + [ToastError(EnterEmail)])
    ensures !AllWhitespace(f.email) && !MatchesPattern(f.email) ==>
      r == f.(isValidEmail := false, toasts := f.toasts + [ToastError(InvalidEmail)])
    ensures MatchesPattern(f.email) ==> r == f.(requests := f.requests + [f.email])
  {
    match SubmitGuard(f.email)
    case Blank => f.(toasts := f.toasts + [ToastError(EnterEmail)])
    case Malformed => f.(isValidEmail := false, toasts := f.toasts + [ToastError(InvalidEmail)])
    case Request(e) => f.(requests := f.requests + [e])
  }

  /** A successful request: a success toast naming the friend, and the field is cleared. */
  function Succeeded(f: Form, friendName: string): (r: Form)
    ensures f.Tracks() ==> r.Tracks()
    ensures r.email == "" && r.isValidEmail == f.isValidEmail && r.requests == f.requests
    ensures r.toasts == f.toasts + [ToastSuccess(AddedText(friendName))]
  {
    f.(email := "", toasts := f.toasts + [ToastSuccess(AddedText(friendName))])
  }

  /** A failed request: the friendly text of the backend message as an error toast, nothing else. */
  function Failed(f: Form, message: Option<string>): (r: Form)
    ensures f.Tracks() ==> r.Tracks()
    ensures r.email == f.email && r.isValidEmail == f.isValidEmail && r.requests == f.requests
    ensures r.toasts == f.toasts + [ToastError(FriendlyError(message))]
  {
    f.(toasts := f.toasts + [ToastError(FriendlyError(message))])
  }

  /**
   * The submit button: disabled while loading, for a blank field, or while
   * the flag is down. While idle, with the flag tracking the field, it is
   * enabled exactly when the field matches the pattern.
   */
  predicate SubmitDisabled(loading: bool, email: string, isValidEmail: bool)
    ensures !loading && FlagTracksEmail(email, isValidEmail) ==>
      (!SubmitDisabled(loading, email, isValidEmail) <==> MatchesPattern(email))
  {
    BlankIffAllWhitespace(email);
    PatternNotBlank(email);
    loading || Trim(email) == "" || !isValidEmail
  }

  /** A string the pattern accepts holds an '@', so it is neither empty nor all whitespace. */
  lemma PatternNotBlank(email: string)
    ensures MatchesPattern(email) ==> email != "" && !AllWhitespace(email)
  {
    if MatchesPattern(email) {
      var i, j :| SplitAt(email, i, j);
      assert !IsWhitespace(email[i]);
    }
  }

  /** The form's invariant: once something is typed, the flag is up exactly when it is an email. */
  ghost predicate FlagTracksEmail(email: string, isValidEmail: bool) {
    email != "" ==> (isValidEmail <==> MatchesPattern(email))
  }

  /** When handleSubmit runs while the button is enabled and idle, its guards never fire: the request goes out. */
  lemma EnabledSubmitSends(email: string, isValidEmail: bool)
    requires FlagTracksEmail(email, isValidEmail)
    requires !SubmitDisabled(false, email, isValidEmail)
    ensures SubmitGuard(email) == Request(email)
  {
  }

  /**
   * The error text for a failed add-friend: the four known backend
   * messages get friendlier texts, any other message is shown as it is,
   * and a failure without a message (no reply, no token) gets the default.
   */
  function FriendlyError(message: Option<string>): (text: string)
    ensures text != ""
    ensures !Truthy(message) ==> text == DefaultFailure
    ensures message == Some(UserController.FriendNotFound) ==> text == NoSuchUserText
    ensures message == Some(UserController.AlreadyAdded) ==> text == AlreadyFriendText
    ensures message == Some(SelfAdd) ==> text == SelfAddText
    ensures message == Some(UserController.EmailRequired) ==> text == EmailMissingText
    ensures Truthy(message) && message.value !in Known() ==>
      text == message.value
  {
    if !Truthy(message) then DefaultFailure
    else if message.value == UserController.FriendNotFound then NoSuchUserText
    else if message.value == UserController.AlreadyAdded then AlreadyFriendText
    else if message.value == SelfAdd then SelfAddText
    else if message.value == UserController.EmailRequired then EmailMissingText
    else message.value
  }

  /** The backend messages the mapping rephrases. */
  function Known(): set<string> {
    {UserController.FriendNotFound, UserController.AlreadyAdded, SelfAdd, UserController.EmailRequired}
  }

  /**
   * What the user reads for each failure the add-friend handler can send:
   * the three guard messages are rephrased, while "User not found" and the
   * server error pass through unchanged.
   */
  lemma BackendFailuresShown()
    ensures FriendlyError(Some(UserController.EmailRequired)) == EmailMissingText
    ensures FriendlyError(Some(UserController.FriendNotFound)) == NoSuchUserText
    ensures FriendlyError(Some(UserController.AlreadyAdded)) == AlreadyFriendText
    ensures FriendlyError(Some(UserController.UserNotFound)) == UserController.UserNotFound
    ensures FriendlyError(Some(UserController.ServerError)) == UserController.ServerError
  {
  }

  /** The self-add case maps a message the add-friend handler never sends. */
  lemma SelfAddNeverSent()
    ensures SelfAdd !in {UserController.EmailRequired, UserController.UserNotFound,
      UserController.FriendNotFound, UserController.AlreadyAdded, UserController.ServerError}
  {
  }

  /** `${data.friend.name} added as friend successfully!` */
  function AddedText(friendName: string): string {
    friendName + " added as friend successfully!"
  }
}
