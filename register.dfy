/** The registration page: a form, two local checks run before any request,
    and the choice of the message shown when the API refuses. */
module Register {
  import opened Strings
  import opened Entities
  import opened Api
  import opened Web

  const EmailDomain := "@stud.noroff.no"
  const MinPasswordLength := 8
  const EmailError := "You must use a @stud.noroff.no email to register."
  const PasswordError := "Password must be at least 8 characters long."
  const RejectedError := "Registration failed."
  const GenericError := "Something went wrong. Please try again."

  /** `formData`. `avatarUrl` has no input of its own; "" stands for `undefined`. */
  datatype RegisterForm = RegisterForm(
    name: string,
    email: string,
    password: string,
    avatarUrl: string,
    venueManager: bool)

  const InitialForm := RegisterForm("my_username", "user@stud.noroff.no", "securepassword", "", true)

  datatype FormField = NameField | EmailField | PasswordField | AvatarUrlField | VenueManagerField

  /** A change event: the target's `value` for a text input, its `checked`
      state for the venue-manager checkbox. */
  datatype ChangeEvent = TextChange(field: FormField, value: string) | CheckboxChange(checked: bool)

  /** The field an event's target names. */
  function Target(e: ChangeEvent): FormField
  {
    if e.TextChange? then e.field else VenueManagerField
  }

  /** The fields in which two forms differ. */
  function ChangedFields(a: RegisterForm, b: RegisterForm): set<FormField>
  {
    (if a.name != b.name then {NameField} else {})
    + (if a.email != b.email then {EmailField} else {})
    + (if a.password != b.password then {PasswordField} else {})
    + (if a.avatarUrl != b.avatarUrl then {AvatarUrlField} else {})
    + (if a.venueManager != b.venueManager then {VenueManagerField} else {})
  }

  /** `handleChange`: only the target's field changes, and it takes the
      event's `checked` state for the checkbox and its `value` otherwise. */
  function HandleChange(form: RegisterForm, e: ChangeEvent): (r: RegisterForm)
    requires e.TextChange? ==> e.field != VenueManagerField
    ensures ChangedFields(form, r) <= {Target(e)}
    ensures e.CheckboxChange? ==> r.venueManager == e.checked
    ensures e.TextChange? && e.field == NameField ==> r.name == e.value
    ensures e.TextChange? && e.field == EmailField ==> r.email == e.value
    ensures e.TextChange? && e.field == PasswordField ==> r.password == e.value
    ensures e.TextChange? && e.field == AvatarUrlField ==> r.avatarUrl == e.value
  {
    match e
    case CheckboxChange(c) => form.(venueManager := c)
    case TextChange(f, v) =>
      match f
      case NameField => form.(name := v)
      case EmailField => form.(email := v)
      case PasswordField => form.(password := v)
      case AvatarUrlField => form.(avatarUrl := v)
  }

  /** The local checks of `handleSubmit`, in their order: the e-mail must end
      with the institutional domain (case-sensitive), then the password must
      have at least eight characters. `None` means both passed. */
  function Validate(form: RegisterForm): (r: Option<string>)
    ensures !EndsWith(form.email, EmailDomain) ==> r == Some(EmailError)
    ensures EndsWith(form.email, EmailDomain) && |form.password| < MinPasswordLength ==> r == Some(PasswordError)
    ensures r == None <==> EndsWith(form.email, EmailDomain) && |form.password| >= MinPasswordLength
  {
    if !EndsWith(form.email, EmailDomain) then Some(EmailError)
    else if |form.password| < MinPasswordLength then Some(PasswordError)
    else None
  }

  /** The JSON body sent: `avatar` is present only for a non-empty `avatarUrl`. */
  function RequestBody(form: RegisterForm): (r: RegisterBody)
    ensures r.avatar.Some? <==> form.avatarUrl != ""
    ensures r.avatar.Some? ==> r.avatar.value == form.avatarUrl
    ensures r.name == form.name && r.email == form.email && r.password == form.password
    ensures r.venueManager == form.venueManager
  {
    RegisterBody(form.name, form.email, form.password,
                 if form.avatarUrl != "" then Some(form.avatarUrl) else None,
                 form.venueManager)
  }

  /** The API's answer to the POST: an OK response, a refusal carrying the
      `message` of each element of its `errors` array (when there is one),
      or a rejected `fetch`. */
  datatype RegisterResponse = Registered | Refused(errors: Option<seq<Option<string>>>) | Unreachable

  /** The message a refusal installs: the first error's `message`; the fixed
      text when there is no `errors` array; and for an empty array the generic
      text, because reading `errors[0].message` throws and the `catch` sets it.
      `None` is `undefined`, which shows no message. */
  function RefusalMessage(errors: Option<seq<Option<string>>>): (r: Option<string>)
    ensures errors.None? ==> r == Some(RejectedError)
    ensures errors.Some? && |errors.value| > 0 ==> r == errors.value[0]
    ensures errors.Some? && |errors.value| == 0 ==> r == Some(GenericError)
  {
    match errors
    case None => Some(RejectedError)
    case Some(es) => if |es| > 0 then es[0] else Some(GenericError)
  }

  class RegisterPage {
    var form: RegisterForm
    var error: Option<string>

    constructor ()
      ensures form == InitialForm && error == Some("")
    {
      form := InitialForm;
      error := Some("");
    }

    method Change(e: ChangeEvent)
      requires e.TextChange? ==> e.field != VenueManagerField
      modifies this`form
      ensures form == HandleChange(old(form), e)
    {
      form := HandleChange(form, e);
    }

    /** `handleSubmit`: a failed local check sets its message and sends
        nothing; otherwise the POST is sent and its answer either navigates to
        the login page or sets the refusal message. */
    method Submit(b: Browser, response: RegisterResponse)
      modifies this`error, b`sent, b`visited
      ensures Validate(form).Some? ==> error == Validate(form) && b.sent == old(b.sent) && b.visited == old(b.visited)
      ensures Validate(form).None? ==> b.sent == old(b.sent) + [Register(RequestBody(form))]
      ensures Validate(form).None? && response.Registered? ==> b.visited == old(b.visited) + [GoTo("/login")] && error == old(error)
      ensures Validate(form).None? && response.Refused? ==> b.visited == old(b.visited) && error == RefusalMessage(response.errors)
      ensures Validate(form).None? && response.Unreachable? ==> b.visited == old(b.visited) && error == Some(GenericError)
    {
      var invalid := Validate(form);
      if invalid.Some? {
        error := invalid;
        return;
      }
      b.Send(Register(RequestBody(form)));
      match response
      case Registered =>
        b.Navigate(GoTo("/login"));
      case Refused(errors) =>
        error := RefusalMessage(errors);
      case Unreachable =>
        error := Some(GenericError);
    }
  }
}
