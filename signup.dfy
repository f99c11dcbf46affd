/**
 * The signup page: a five-field form, the two password checks made before
 * any request, and the feedback shown for the reply. The request carries
 * the whole form; the backend reads only name, email and password from it.
 */
module SignupPage {
  import opened Wrappers
  import opened JsString
  import opened ClientTypes
  import UserController

  datatype SignupForm = SignupForm(name: string, email: string, password: string, confirmPassword: string, status: string)

  const DefaultStatus := "Hey there! I am using ChatApp"
  const Mismatch := "Passwords do not match"
  const TooShort := "Password must be at least 8 characters long"
  const SignupOk := "Signup successful"
  const SignupFailed := "Signup failed"
  const SignupError := "An error occurred during signup"
  const MinPasswordLength := 8

  /** The form as the page first shows it: empty except for the default status line. */
  function InitialForm(): (f: SignupForm)
    ensures f.name == "" && f.email == "" && f.password == "" && f.confirmPassword == ""
    ensures f.status == DefaultStatus
  {
    SignupForm("", "", "", "", DefaultStatus)
  }

  /** The `name` attribute of the input that changed. */
  datatype Field = Name | Email | Password | ConfirmPassword | Status

  function Get(f: SignupForm, field: Field): string {
    match field
    case Name => f.name
    case Email => f.email
    case Password => f.password
    case ConfirmPassword => f.confirmPassword
    case Status => f.status
  }

  /** `{ ...prev, [name]: value }`: the named field takes the value and every other field is kept. */
  function WithField(f: SignupForm, field: Field, value: string): (r: SignupForm)
    ensures Get(r, field) == value
    ensures forall other :: other != field ==> Get(r, other) == Get(f, other)
  {
    match field
    case Name => f.(name := value)
    case Email => f.(email := value)
    case Password => f.(password := value)
    case ConfirmPassword => f.(confirmPassword := value)
    case Status => f.(status := value)
  }

  /**
   * The checks before sending: a mismatch is reported first, whatever the
   * length; then a password under 8 UTF-16 code units; otherwise none.
   */
  function PasswordProblem(f: SignupForm): (r: Option<string>)
    ensures f.password != f.confirmPassword ==> r == Some(Mismatch)
    ensures f.password == f.confirmPassword && Utf16Length(f.password) < MinPasswordLength ==> r == Some(TooShort)
    ensures r == None <==> f.password == f.confirmPassword && Utf16Length(f.password) >= MinPasswordLength
  {
    if f.password != f.confirmPassword then Some(Mismatch)
    else if Utf16Length(f.password) < MinPasswordLength then Some(TooShort)
    else None
  }

  /** Eight characters always pass the length check. */
  lemma EightCharactersSuffice(f: SignupForm)
    requires f.password == f.confirmPassword && |f.password| >= MinPasswordLength
    ensures PasswordProblem(f) == None
  {
  }

  /** The length counts UTF-16 code units: four emoji pass as eight. */
  lemma FourEmojiPass()
    ensures var p := "\U{1F600}\U{1F600}\U{1F600}\U{1F600}";
      |p| == 4 && PasswordProblem(SignupForm("", "", p, p, "")) == None
  {
    var p := "\U{1F600}\U{1F600}\U{1F600}\U{1F600}";
    assert p[1..][1..][1..][1..] == [];
  }

  /** What the client receives: a 2xx body (success flag, optional message, optional token), or a thrown error. */
  datatype HttpResult = Ok(success: bool, message: Option<string>, token: Option<string>) | Thrown

  /** The toast shown and, on success, the token that is stored. */
  datatype Feedback = Feedback(toast: Toast, storedToken: Option<Option<string>>)

  /**
   * The outcome of a request: a successful body stores its token (even an
   * absent one); an unsuccessful body shows its message or "Signup
   * failed"; a thrown error (network failure or non-2xx status) shows a
   * fixed text.
   */
  function Outcome(result: HttpResult): (fb: Feedback)
    ensures fb.storedToken.Some? <==> result.Ok? && result.success
    ensures fb.storedToken.Some? ==> fb.storedToken.value == result.token && fb.toast == ToastSuccess(SignupOk)
    ensures result.Ok? && !result.success ==> fb.toast == ToastError(OrElse(result.message, SignupFailed))
    ensures result.Thrown? ==> fb.toast == ToastError(SignupError)
  {
    match result
    case Thrown => Feedback(ToastError(SignupError), None)
    case Ok(success, message, token) =>
      if success then Feedback(ToastSuccess(SignupOk), Some(token))
      else Feedback(ToastError(OrElse(message, SignupFailed)), None)
  }

  /** axios turns a non-2xx status into a thrown error; a 2xx body is handed over. */
  function Received(reply: UserController.Reply, token: string): (r: HttpResult)
    ensures !(200 <= reply.status < 300) ==> r == Thrown
  {
    if !(200 <= reply.status < 300) then Thrown
    else match reply.body
      case SignedUp(message, _) => Ok(true, Some(message), Some(token))
      case Failure(message) => Ok(false, Some(message), None)
      case _ => Ok(false, None, None)
  }

  /**
   * Against this backend the "Signup failed" branch is dead: every signup
   * reply is either a 201 that signs the user in or a 400/500 that the
   * client shows as the fixed error text, never the backend's message.
   */
  lemma BackendSignupFeedback(reply: UserController.Reply, token: string)
    requires reply == UserController.Reply(400, UserController.Failure(UserController.UserExists))
      || reply == UserController.Reply(500, UserController.Failure(UserController.ServerError))
      || (reply.status == 201 && reply.body.SignedUp?)
    ensures reply.status == 201 ==> Outcome(Received(reply, token)) == Feedback(ToastSuccess(SignupOk), Some(Some(token)))
    ensures reply.status != 201 ==> Outcome(Received(reply, token)) == Feedback(ToastError(SignupError), None)
  {
  }

  class Page {
    var form: SignupForm
    var loading: bool
    var token: Option<string>
    /** The forms posted to the signup endpoint, in order. */
    var requests: seq<SignupForm>
    var toasts: seq<Toast>

    constructor ()
      ensures form == InitialForm() && !loading && token == None && requests == [] && toasts == []
    {
      form, loading, token, requests, toasts := InitialForm(), false, None, [], [];
    }

    /** handleChange: only the named field changes. */
    method HandleChange(field: Field, value: string)
      modifies this
      ensures form == WithField(old(form), field, value)
      ensures loading == old(loading) && token == old(token) && requests == old(requests) && toasts == old(toasts)
    {
      form := WithField(form, field, value);
    }

    /**
     * handleSubmit: a password problem is shown and nothing is sent;
     * otherwise the page starts loading and posts the whole form. The
     * submit button is disabled while loading, so no submit arrives then.
     */
    method HandleSubmit()
      requires !loading
      modifies this
      ensures form == old(form) && token == old(token)
      ensures PasswordProblem(old(form)).Some? ==>
        && toasts == old(toasts) + [ToastError(PasswordProblem(old(form)).value)]
        && requests == old(requests) && !loading
      ensures PasswordProblem(old(form)).None? ==>
        toasts == old(toasts) && requests == old(requests) + [old(form)] && loading
    {
      var problem := PasswordProblem(form);
      if problem.Some? {
        toasts := toasts + [ToastError(problem.value)];
        return;
      }
      loading := true;
      requests := requests + [form];
    }

    /** The request settles: loading ends, the outcome's toast is shown and a success stores its token. */
    method OnResult(result: HttpResult)
      modifies this
      ensures !loading && form == old(form) && requests == old(requests)
      ensures toasts == old(toasts) + [Outcome(result).toast]
      ensures token == if Outcome(result).storedToken.Some? then Outcome(result).storedToken.value else old(token)
    {
      var fb := Outcome(result);
      if fb.storedToken.Some? {
        token := fb.storedToken.value;
      }
      toasts := toasts + [fb.toast];
      loading := false;
    }
  }
}
