/** `UserFormScreen`: the create/edit form. Its Compose state variables are
    the fields of `UserForm`; its event handlers are the methods. The
    platform's e-mail pattern is an injected predicate. */
module UserForm {
  import opened Wrappers
  import opened Text
  import opened Models
  import UserList

  const NameRequired := "El nombre es obligatorio"
  const EmailRequired := "El email es obligatorio"
  const EmailInvalid := "Email inválido"
  const PhoneRequired := "El teléfono es obligatorio"
  const PhoneTooShort := "El teléfono debe tener al menos 10 dígitos"
  const PhoneLength := 10

  /** The name check of `validateForm`. */
  function NameError(name: string): (e: Option<string>)
    ensures e.None? <==> !IsBlank(name)
    ensures e.Some? ==> e.value == NameRequired
  {
    if IsBlank(name) then Some(NameRequired) else None
  }

  /** The e-mail check: blankness is reported before the pattern is tried. */
  function EmailError(email: string, matches: string -> bool): (e: Option<string>)
    ensures e.None? <==> !IsBlank(email) && matches(email)
    ensures IsBlank(email) ==> e == Some(EmailRequired)
    ensures !IsBlank(email) && !matches(email) ==> e == Some(EmailInvalid)
  {
    if IsBlank(email) then Some(EmailRequired)
    else if !matches(email) then Some(EmailInvalid)
    else None
  }

  /** The phone check: blankness first, then a length of at least ten,
      counted as Kotlin counts it, in UTF-16 units. */
  function PhoneError(phone: string): (e: Option<string>)
    ensures e.None? <==> !IsBlank(phone) && Utf16Length(phone) >= PhoneLength
    ensures IsBlank(phone) ==> e == Some(PhoneRequired)
    ensures !IsBlank(phone) && Utf16Length(phone) < PhoneLength ==> e == Some(PhoneTooShort)
  {
    if IsBlank(phone) then Some(PhoneRequired)
    else if Utf16Length(phone) < PhoneLength then Some(PhoneTooShort)
    else None
  }

  predicate FormValid(name: string, email: string, phone: string, matches: string -> bool) {
    NameError(name).None? && EmailError(email, matches).None? && PhoneError(phone).None?
  }

  /** The phone field's input filter: only digits, at most ten of them. An
      accepted value passes the phone check exactly when it is ten digits long. */
  predicate PhoneAccepted(candidate: string)
    ensures PhoneAccepted(candidate) ==> |candidate| <= PhoneLength
    ensures PhoneAccepted(candidate) ==> (PhoneError(candidate).None? <==> |candidate| == PhoneLength)
  {
    if AllDigits(candidate) then
      BmpUtf16Length(candidate);
      assert candidate != [] ==> !IsWhitespace(candidate[0]);
      Utf16Length(candidate) <= PhoneLength
    else false
  }

  /** The phone value after the user typed the candidates `edits` in turn. */
  function TypedPhone(phone: string, edits: seq<string>): string {
    if edits == [] then phone
    else
      var before := TypedPhone(phone, edits[..|edits| - 1]);
      var candidate := edits[|edits| - 1];
      if PhoneAccepted(candidate) then candidate else before
  }

  lemma {:induction false} TypedPhoneAccepted(phone: string, edits: seq<string>)
    requires PhoneAccepted(phone)
    ensures PhoneAccepted(TypedPhone(phone, edits))
  {
    if edits != [] { TypedPhoneAccepted(phone, edits[..|edits| - 1]); }
  }

  /** Whatever is typed through the filter, starting from the empty field of a
      new form, passes the phone check exactly when it is ten digits long. */
  lemma TypedPhoneValidIffTenDigits(edits: seq<string>)
    ensures var p := TypedPhone("", edits);
      AllDigits(p) && (PhoneError(p).None? <==> |p| == PhoneLength)
  {
    TypedPhoneAccepted("", edits);
  }

  /** A phone loaded from a stored user is not filtered: the check counts
      characters, so a formatted number with fewer than ten digits passes. */
  lemma LoadedPhoneBypassesFilter()
    ensures var p := "555-123-45"; !PhoneAccepted(p) && PhoneError(p).None?
  {
    var p := "555-123-45";
    assert !IsDigit(p[3]);
    assert !IsWhitespace(p[0]);
    BmpUtf16Length(p);
  }

  /** The check counts UTF-16 units, so five characters from beyond the
      Basic Multilingual Plane already make a long enough phone. */
  lemma WidePhonePassesCheck()
    ensures var p := "\U{1F600}\U{1F600}\U{1F600}\U{1F600}\U{1F600}";
      |p| == 5 && PhoneError(p).None?
  {
    var p := "\U{1F600}\U{1F600}\U{1F600}\U{1F600}\U{1F600}";
    assert !IsWhitespace(p[0]);
    assert Utf16Length(p[..1]) == 2 by { assert p[..1][..0] == []; }
    assert Utf16Length(p[..2]) == 4 by { assert p[..2][..1] == p[..1]; }
    assert Utf16Length(p[..3]) == 6 by { assert p[..3][..2] == p[..2]; }
    assert Utf16Length(p[..4]) == 8 by { assert p[..4][..3] == p[..3]; }
    assert p[..5][..4] == p[..4] && p[..5] == p;
  }

  /** What `handleSubmit` saves: trimmed fields, no id, no timestamps, and an
      image URL only when one was entered. */
  function UserToSave(name: string, email: string, phone: string, imageUrl: string): (u: User)
    ensures u.id == None && u.createdAt == None && u.updatedAt == None
    ensures u.name == Trim(name) && u.email == Trim(email) && u.phone == Trim(phone)
    ensures u.imageUrl.None? <==> IsBlank(imageUrl)
    ensures u.imageUrl.Some? ==> u.imageUrl.value == Trim(imageUrl) && !IsBlank(u.imageUrl.value)
  {
    BlankIffTrimEmpty(imageUrl);
    assert !IsBlank(imageUrl) ==> !IsWhitespace(Trim(imageUrl)[0]);
    User(None, Trim(name), Trim(email), Trim(phone),
         if !IsBlank(imageUrl) then Some(Trim(imageUrl)) else None, None, None)
  }

  /** A typed phone needs no trimming, so the saved phone is the validated one. */
  lemma DigitsTrimToThemselves(p: string)
    requires AllDigits(p)
    ensures Trim(p) == p
  {
  }

  /** A validated form saves a user whose name and e-mail are still not blank. */
  lemma SavedFieldsNotBlank(name: string, email: string, phone: string, imageUrl: string, matches: string -> bool)
    requires FormValid(name, email, phone, matches)
    ensures var u := UserToSave(name, email, phone, imageUrl);
      !IsBlank(u.name) && !IsBlank(u.email) && NameError(u.name).None?
  {
    BlankIffTrimEmpty(name);
    BlankIffTrimEmpty(email);
    var n := Trim(name);
    var e := Trim(email);
    assert !IsWhitespace(n[0]);
    assert !IsWhitespace(e[0]);
  }

  /** A contact saved from the form shows its photo in the list and on the
      detail screen exactly when its URL field was not blank. */
  lemma SavedPhotoIffUrlEntered(name: string, email: string, phone: string, imageUrl: string)
    ensures UserList.HasPhoto(UserToSave(name, email, phone, imageUrl)) <==> !IsBlank(imageUrl)
  {
  }

  /** The request `handleSubmit` sends: update in edit mode, create otherwise. */
  datatype Submission = CreateRequest(user: User) | UpdateRequest(id: int, user: User)

  function SubmissionFor(userId: Option<int>, u: User): (s: Submission)
    ensures s.user == u
    ensures s.UpdateRequest? <==> userId.Some?
    ensures s.UpdateRequest? ==> s.id == userId.value
  {
    match userId
    case Some(id) => UpdateRequest(id, u)
    case None => CreateRequest(u)
  }

  /** What the avatar circle shows. */
  datatype Avatar = PickedImage(uri: string) | RemoteImage(url: string) | Placeholder

  /** A picked image wins; otherwise a non-blank URL starting with `http`;
      otherwise the placeholder icon. */
  function AvatarFor(selectedImageUri: Option<string>, imageUrl: string): (a: Avatar)
    ensures selectedImageUri.Some? ==> a == PickedImage(selectedImageUri.value)
    ensures selectedImageUri.None? && StartsWith(imageUrl, "http") ==> a == RemoteImage(imageUrl)
    ensures selectedImageUri.None? && !StartsWith(imageUrl, "http") ==> a == Placeholder
  {
    if selectedImageUri.Some? then PickedImage(selectedImageUri.value)
    else if !IsBlank(imageUrl) && StartsWith(imageUrl, "http") then
      RemoteImage(imageUrl)
    else
      assert StartsWith(imageUrl, "http") ==> !IsWhitespace(imageUrl[0]);
      Placeholder
  }

  /** The form's state. */
  class FormState {
    /** `null` in create mode, the edited user's id in edit mode. */
    const userId: Option<int>
    /** The platform's e-mail address pattern. */
    const emailPattern: string -> bool

    var name: string
    var email: string
    var phone: string
    var imageUrl: string
    var selectedImageUri: Option<string>
    var nameError: Option<string>
    var emailError: Option<string>
    var phoneError: Option<string>

    function IsEditMode(): bool {
      userId.Some?
    }

    function CurrentAvatar(): Avatar
      reads this
    {
      AvatarFor(selectedImageUri, imageUrl)
    }

    constructor (userId: Option<int>, emailPattern: string -> bool)
      ensures this.userId == userId && this.emailPattern == emailPattern
      ensures name == "" && email == "" && phone == "" && imageUrl == "" && selectedImageUri == None
      ensures nameError == None && emailError == None && phoneError == None
    {
      this.userId := userId;
      this.emailPattern := emailPattern;
      name, email, phone, imageUrl := "", "", "", "";
      selectedImageUri := None;
      nameError, emailError, phoneError := None, None, None;
    }

    /** `validateForm()`: all three checks run, each sets its own error, and
        the form is valid exactly when none of them failed. */
    method ValidateForm() returns (isValid: bool)
      modifies this`nameError, this`emailError, this`phoneError
      ensures nameError == NameError(name)
      ensures emailError == EmailError(email, emailPattern)
      ensures phoneError == PhoneError(phone)
      ensures isValid <==> FormValid(name, email, phone, emailPattern)
    {
      isValid := true;

      if IsBlank(name) {
        nameError := Some(NameRequired);
        isValid := false;
      } else {
        nameError := None;
      }

      if IsBlank(email) {
        emailError := Some(EmailRequired);
        isValid := false;
      } else if !emailPattern(email) {
        emailError := Some(EmailInvalid);
        isValid := false;
      } else {
        emailError := None;
      }

      if IsBlank(phone) {
        phoneError := Some(PhoneRequired);
        isValid := false;
      } else if Utf16Length(phone) < PhoneLength {
        phoneError := Some(PhoneTooShort);
        isValid := false;
      } else {
        phoneError := None;
      }
    }

    /** `handleSubmit()`: nothing is sent unless the form validates; otherwise
        the built user goes to update (edit mode) or create. */
    method HandleSubmit() returns (sent: Option<Submission>)
      modifies this`nameError, this`emailError, this`phoneError
      ensures nameError == NameError(name)
      ensures emailError == EmailError(email, emailPattern)
      ensures phoneError == PhoneError(phone)
      ensures sent.None? <==> !FormValid(name, email, phone, emailPattern)
      ensures sent.Some? ==> sent.value == SubmissionFor(userId, UserToSave(name, email, phone, imageUrl))
    {
      var valid := ValidateForm();
      if valid {
        var userToSave := UserToSave(name, email, phone, imageUrl);
        if IsEditMode() {
          sent := Some(UpdateRequest(userId.value, userToSave));
        } else {
          sent := Some(CreateRequest(userToSave));
        }
      } else {
        sent := None;
      }
    }

    method OnNameChange(v: string)
      modifies this`name, this`nameError
      ensures name == v && nameError == None
    {
      name := v;
      nameError := None;
    }

    method OnEmailChange(v: string)
      modifies this`email, this`emailError
      ensures email == v && emailError == None
    {
      email := v;
      emailError := None;
    }

    /** The phone filter: a rejected candidate changes nothing. */
    method OnPhoneChange(v: string)
      modifies this`phone, this`phoneError
      ensures PhoneAccepted(v) ==> phone == v && phoneError == None
      ensures !PhoneAccepted(v) ==> phone == old(phone) && phoneError == old(phoneError)
      ensures phone == TypedPhone(old(phone), [v])
    {
      if AllDigits(v) && Utf16Length(v) <= PhoneLength {
        phone := v;
        phoneError := None;
      }
    }

    /** Typing a URL discards a picked image. */
    method OnImageUrlChange(v: string)
      modifies this`imageUrl, this`selectedImageUri
      ensures imageUrl == v && selectedImageUri == None
      ensures CurrentAvatar() == (if StartsWith(v, "http") then RemoteImage(v) else Placeholder)
    {
      imageUrl := v;
      selectedImageUri := None;
    }

    /** The image picker's result: the URI, and its text in the URL field. */
    method OnImagePicked(uri: Option<string>)
      modifies this`imageUrl, this`selectedImageUri
      ensures selectedImageUri == uri && imageUrl == uri.GetOr("")
      ensures uri.Some? ==> CurrentAvatar() == PickedImage(uri.value)
    {
      selectedImageUri := uri;
      imageUrl := uri.GetOr("");
    }

    /** The effect keyed on `userId`: edit mode asks for `loadUser(userId)`;
        create mode empties the fields (the error messages are kept). */
    method OnEnter() returns (loadRequest: Option<int>)
      modifies this`name, this`email, this`phone, this`imageUrl, this`selectedImageUri
      ensures loadRequest == userId
      ensures userId.Some? ==>
        name == old(name) && email == old(email) && phone == old(phone)
        && imageUrl == old(imageUrl) && selectedImageUri == old(selectedImageUri)
      ensures userId.None? ==>
        name == "" && email == "" && phone == "" && imageUrl == "" && selectedImageUri == None
    {
      if userId.Some? {
        loadRequest := userId;
      } else {
        loadRequest := None;
        name := "";
        email := "";
        phone := "";
        imageUrl := "";
        selectedImageUri := None;
      }
    }

    /** The effect keyed on the selected user: in edit mode a loaded user
        fills the fields, bypassing the phone filter. */
    method OnSelectedUser(user: Option<User>)
      modifies this`name, this`email, this`phone, this`imageUrl
      ensures userId.Some? && user.Some? ==>
        name == user.value.name && email == user.value.email && phone == user.value.phone
        && imageUrl == user.value.imageUrl.GetOr("")
      ensures userId.None? || user.None? ==>
        name == old(name) && email == old(email) && phone == old(phone) && imageUrl == old(imageUrl)
    {
      if userId.Some? && user.Some? {
        var u := user.value;
        name := u.name;
        email := u.email;
        phone := u.phone;
        imageUrl := u.imageUrl.GetOr("");
      }
    }
  }
}
