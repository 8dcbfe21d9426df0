/** The sign-up form: field edits and the submit handler. */
module SignupPage {
  import opened Wrappers
  import opened AuthContext

  const AllFieldsRequired := "All fields are required."

  datatype Form = Form(name: string, email: string, password: string)

  /** The `name` attribute of the input that changed. */
  datatype Field = NameField | EmailField | PasswordField

  /** `{ ...formData, [name]: value }`. */
  function WithField(form: Form, field: Field, value: string): Form {
    match field
    case NameField => form.(name := value)
    case EmailField => form.(email := value)
    case PasswordField => form.(password := value)
  }

  /** The guard: each field is tested as it is, without trimming. */
  function Validate(form: Form): (error: Option<string>)
    ensures error.Some? <==> form.name == "" || form.email == "" || form.password == ""
    ensures error.Some? ==> error.value == AllFieldsRequired
  {
    if form.name == "" || form.email == "" || form.password == "" then Some(AllFieldsRequired) else None
  }

  /** Whitespace-only fields pass the guard. */
  lemma WhitespaceOnlyPasses()
    ensures Validate(Form(" ", " ", " ")).None?
  {
  }

  class SignupForm {
    var form: Form
    var error: string

    constructor ()
      ensures form == Form("", "", "") && error == ""
    {
      form, error := Form("", "", ""), "";
    }

    /** `handleChange`. */
    method HandleChange(field: Field, value: string)
      modifies this`form
      ensures form == WithField(old(form), field, value)
    {
      form := WithField(form, field, value);
    }

    /** `handleSubmit`: a failed guard sets its error and never calls `register`; a
        `register` error is shown; anything else navigates to the login page. */
    method HandleSubmit(auth: Session, newId: string, checked: bool, post: FetchOutcome)
      returns (navigateTo: Option<string>, result: Option<RegisterResult>)
      modifies this`error, auth`users
      ensures result.None? <==> Validate(form).Some?
      ensures result.Some? ==> result.value == RegisterOutcome(old(auth.users), form.email, checked, post)
      ensures result.None? ==> error == AllFieldsRequired && navigateTo.None? && unchanged(auth)
      ensures result.Some? && result.value.RegisterError? && result.value.error != "" ==>
        error == result.value.error && navigateTo.None?
      ensures result.Some? && !(result.value.RegisterError? && result.value.error != "") ==>
        error == old(error) && navigateTo == Some("/login")
      ensures auth.authUser == old(auth.authUser) && auth.role == old(auth.role)
    {
      var invalid := Validate(form);
      if invalid.Some? {
        error := invalid.value;
        return None, None;
      }
      var r := auth.Register(form.name, form.email, form.password, newId, checked, post);
      result := Some(r);
      if r.RegisterError? && r.error != "" {
        error := r.error;
        navigateTo := None;
      } else {
        navigateTo := Some("/login");
      }
    }
  }
}
