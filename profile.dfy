/**
 * The profile page: a three-field form prefilled from the signed-in
 * user's record, an avatar picker with a size and a type check, and an
 * edit mode left on success or on cancel. The update request itself and
 * the reading of the image into a preview are outside this model.
 */
module ProfilePage {
  import opened Wrappers
  import opened JsString
  import opened ClientTypes

  /** The user record from the context; any field may be missing. */
  datatype UserData = UserData(name: Option<string>, email: Option<string>, status: Option<string>, avatar: Option<string>)

  datatype ProfileForm = ProfileForm(name: string, email: string, status: string)

  /** A chosen file: its size in bytes and its MIME type. */
  datatype AvatarFile = AvatarFile(size: nat, mimeType: string)

  const MaxAvatarBytes: nat := 5 * 1024 * 1024
  const TooLargeText := "Image size should be less than 5MB"
  const NotImageText := "Please select a valid image file"

  /** The form filled from the record: each field, or "" where the record has none or an empty one. */
  function Prefill(u: UserData): (f: ProfileForm)
    ensures f.name == OrElse(u.name, "") && f.email == OrElse(u.email, "") && f.status == OrElse(u.status, "")
    ensures Truthy(u.name) ==> f.name == u.name.value
  {
    ProfileForm(OrElse(u.name, ""), OrElse(u.email, ""), OrElse(u.status, ""))
  }

  /** The `name` attribute of the input that changed. */
  datatype Field = Name | Email | Status

  function Get(f: ProfileForm, field: Field): string {
    match field
    case Name => f.name
    case Email => f.email
    case Status => f.status
  }

  /** `{ ...prev, [name]: value }`: the named field takes the value and the other two are kept. */
  function WithField(f: ProfileForm, field: Field, value: string): (r: ProfileForm)
    ensures Get(r, field) == value
    ensures forall other :: other != field ==> Get(r, other) == Get(f, other)
  {
    match field
    case Name => f.(name := value)
    case Email => f.(email := value)
    case Status => f.(status := value)
  }

  datatype AvatarCheck = NoFile | TooLarge | NotImage | Accepted(file: AvatarFile)

  /**
   * handleAvatarChange's checks, in order: no file does nothing; a file
   * over 5 MiB is refused whatever its type; then a type not starting
   * with "image/" is refused; otherwise the file is taken.
   */
  function CheckAvatar(file: Option<AvatarFile>): (r: AvatarCheck)
    ensures r == NoFile <==> file.None?
    ensures r == TooLarge <==> file.Some? && file.value.size > MaxAvatarBytes
    ensures r == NotImage <==> file.Some? && file.value.size <= MaxAvatarBytes && !StartsWith(file.value.mimeType, "image/")
    ensures r.Accepted? ==> r.file == file.value
  {
    if file.None? then NoFile
    else if file.value.size > MaxAvatarBytes then TooLarge
    else if !StartsWith(file.value.mimeType, "image/") then NotImage
    else Accepted(file.value)
  }

  /** The limit is inclusive: an image of exactly 5 MiB is taken, one byte more is refused. */
  lemma AvatarLimitInclusive(mimeType: string)
    requires StartsWith(mimeType, "image/")
    ensures CheckAvatar(Some(AvatarFile(5242880, mimeType))) == Accepted(AvatarFile(5242880, mimeType))
    ensures CheckAvatar(Some(AvatarFile(5242881, mimeType))) == TooLarge
  {
  }

  /** Size is checked before type: an oversized non-image gets the size complaint. */
  lemma SizeCheckedFirst(size: nat)
    requires size > MaxAvatarBytes
    ensures CheckAvatar(Some(AvatarFile(size, "application/pdf"))) == TooLarge
  {
  }

  class Page {
    /** The context's user record; absent while it loads, when only a spinner is shown. */
    var userData: Option<UserData>
    var isEditing: bool
    var form: ProfileForm
    /** The file waiting to be uploaded with the next submit. */
    var avatar: Option<AvatarFile>
    var avatarPreview: string
    /** The (form, file) pairs passed to the update call, in order. */
    var updates: seq<(ProfileForm, Option<AvatarFile>)>
    var toasts: seq<Toast>

    constructor (userData: Option<UserData>)
      ensures this.userData == userData && !isEditing && form == ProfileForm("", "", "")
      ensures avatar == None && avatarPreview == "" && updates == [] && toasts == []
    {
      this.userData, isEditing, form := userData, false, ProfileForm("", "", "");
      avatar, avatarPreview, updates, toasts := None, "", [], [];
    }

    /** The effect on `userData`: a new record refills the form and the preview; an absent one changes nothing else. */
    method SyncFromUserData(u: Option<UserData>)
      modifies this
      ensures userData == u
      ensures u.Some? ==> form == Prefill(u.value) && avatarPreview == OrElse(u.value.avatar, "")
      ensures u.None? ==> form == old(form) && avatarPreview == old(avatarPreview)
      ensures isEditing == old(isEditing) && avatar == old(avatar) && updates == old(updates) && toasts == old(toasts)
    {
      userData := u;
      if u.Some? {
        form := Prefill(u.value);
        avatarPreview := OrElse(u.value.avatar, "");
      }
    }

    /** The Edit Profile button. */
    method StartEditing()
      requires userData.Some?
      modifies this
      ensures isEditing
      ensures userData == old(userData) && form == old(form) && avatar == old(avatar)
      ensures avatarPreview == old(avatarPreview) && updates == old(updates) && toasts == old(toasts)
    {
      isEditing := true;
    }

    /** handleInputChange: the inputs exist only in edit mode; only the named field changes. */
    method HandleInputChange(field: Field, value: string)
      requires userData.Some? && isEditing
      modifies this
      ensures form == WithField(old(form), field, value)
      ensures userData == old(userData) && isEditing == old(isEditing) && avatar == old(avatar)
      ensures avatarPreview == old(avatarPreview) && updates == old(updates) && toasts == old(toasts)
    {
      form := WithField(form, field, value);
    }

    /** handleAvatarChange: a refused file is reported and leaves the pending file as it was. */
    method HandleAvatarChange(file: Option<AvatarFile>)
      requires userData.Some? && isEditing
      modifies this
      ensures userData == old(userData) && isEditing == old(isEditing) && form == old(form)
      ensures avatarPreview == old(avatarPreview) && updates == old(updates)
      ensures CheckAvatar(file) == NoFile ==> avatar == old(avatar) && toasts == old(toasts)
      ensures CheckAvatar(file) == TooLarge ==> avatar == old(avatar) && toasts == old(toasts) + [ToastError(TooLargeText)]
      ensures CheckAvatar(file) == NotImage ==> avatar == old(avatar) && toasts == old(toasts) + [ToastError(NotImageText)]
      ensures CheckAvatar(file).Accepted? ==> avatar == file && toasts == old(toasts)
    {
      match CheckAvatar(file) {
        case NoFile =>
        case TooLarge =>
          toasts := toasts + [ToastError(TooLargeText)];
        case NotImage =>
          toasts := toasts + [ToastError(NotImageText)];
        case Accepted(f) =>
          avatar := Some(f);
      }
    }

    /** handleSubmit, reachable only from the edit form: the current form and pending file go to the update call. */
    method HandleSubmit()
      requires userData.Some? && isEditing
      modifies this
      ensures updates == old(updates) + [(old(form), old(avatar))]
      ensures userData == old(userData) && isEditing == old(isEditing) && form == old(form)
      ensures avatar == old(avatar) && avatarPreview == old(avatarPreview) && toasts == old(toasts)
    {
      updates := updates + [(form, avatar)];
    }

    /** The update call's result: only a success leaves edit mode and drops the pending file. */
    method OnSubmitResult(success: bool)
      modifies this
      ensures success ==> !isEditing && avatar == None
      ensures !success ==> isEditing == old(isEditing) && avatar == old(avatar)
      ensures userData == old(userData) && form == old(form) && avatarPreview == old(avatarPreview)
      ensures updates == old(updates) && toasts == old(toasts)
    {
      if success {
        isEditing := false;
        avatar := None;
      }
    }

    /** handleCancel: the form and preview return to the record, the pending file is dropped, edit mode ends. */
    method HandleCancel()
      requires userData.Some? && isEditing
      modifies this
      ensures !isEditing && avatar == None
      ensures userData == old(userData)
      ensures form == Prefill(userData.value) && avatarPreview == OrElse(userData.value.avatar, "")
      ensures updates == old(updates) && toasts == old(toasts)
    {
      form := Prefill(userData.value);
      avatarPreview := OrElse(userData.value.avatar, "");
      avatar := None;
      isEditing := false;
    }
  }

  /** A record holding a saved form's values prefills exactly that form, empty fields included. */
  lemma PrefillRoundTrip(f: ProfileForm, avatar: Option<string>)
    ensures Prefill(UserData(Some(f.name), Some(f.email), Some(f.status), avatar)) == f
  {
  }

  /** Typing a field's current value back into it leaves the form unchanged, and only then. */
  lemma {:induction false} RetypeIsNoChange(f: ProfileForm, field: Field, value: string)
    ensures WithField(f, field, value) == f <==> value == Get(f, field)
  {
    if value == Get(f, field) {
      match field
      case Name =>
      case Email =>
      case Status =>
    }
  }
}
