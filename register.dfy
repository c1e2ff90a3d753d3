/** The registration page: the field checks run before anything is sent,
    the payload built from the form, and the submission's effect on the
    page. The `register` request is reduced to its outcome. */
module Register {
  import opened Wrappers

  /** The five text fields of the form. */
  datatype RegisterForm = RegisterForm(firstname: string, lastname: string, email: string, password: string, conPassword: string)

  /** The object sent to `register`. */
  datatype RegisterPayload = RegisterPayload(firstname: string, lastname: string, email: string, password: string, role: string)

  /** Why the form was turned away before sending. */
  datatype Rejection = MissingField | PasswordMismatch

  /** The alerts the page raises. */
  datatype Alert = AllFieldsRequired | PasswordsDoNotMatch | RegistrationSuccessful | RegistrationFailed

  predicate AllFilled(form: RegisterForm) {
    form.firstname != "" && form.lastname != "" && form.email != "" && form.password != "" && form.conPassword != ""
  }

  /** The guards of `handleRgister` and the payload it builds: any empty
      field rejects the form first; then differing passwords reject it;
      otherwise the payload carries the four fields and the role "USER". */
  function Validate(form: RegisterForm): (r: Result<RegisterPayload, Rejection>)
    ensures r == Failure(MissingField) <==> !AllFilled(form)
    ensures r == Failure(PasswordMismatch) <==> AllFilled(form) && form.password != form.conPassword
    ensures r.Success? <==> AllFilled(form) && form.password == form.conPassword
    ensures r.Success? ==> r.value.role == "USER"
  {
    if form.firstname == "" || form.lastname == "" || form.email == "" || form.password == "" || form.conPassword == "" then
      Failure(MissingField)
    else if form.password != form.conPassword then
      Failure(PasswordMismatch)
    else
      Success(RegisterPayload(form.firstname, form.lastname, form.email, form.password, "USER"))
  }

  /** The form a payload was built from: its fields, with the confirmation
      equal to the password. */
  function FormOf(p: RegisterPayload): RegisterForm {
    RegisterForm(p.firstname, p.lastname, p.email, p.password, p.password)
  }

  /** An accepted form is recovered from its payload: nothing typed is
      lost or altered on the way. */
  lemma PayloadKeepsForm(form: RegisterForm)
    requires Validate(form).Success?
    ensures FormOf(Validate(form).value) == form
  {
  }

  /** Every accepted payload has non-empty fields and the role "USER",
      whatever was typed. */
  lemma PayloadShape(form: RegisterForm)
    requires Validate(form).Success?
    ensures var p := Validate(form).value;
      p.firstname != "" && p.lastname != "" && p.email != "" && p.password != "" && p.role == "USER"
  {
  }

  /** The missing-field check comes first: a form with an empty field is
      rejected for that reason even when its passwords differ. */
  lemma EmptyFieldWins(form: RegisterForm)
    requires !AllFilled(form) && form.password != form.conPassword
    ensures Validate(form) == Failure(MissingField)
  {
  }

  function AlertFor(why: Rejection): Alert {
    match why
    case MissingField => AllFieldsRequired
    case PasswordMismatch => PasswordsDoNotMatch
  }

  class RegisterPage {
    var firstname: string
    var lastname: string
    var email: string
    var password: string
    var conPassword: string
    var loading: bool
    /** The current route. */
    var path: string
    /** The alerts raised so far, oldest first. */
    var alerts: seq<Alert>

    function Form(): RegisterForm
      reads this
    {
      RegisterForm(firstname, lastname, email, password, conPassword)
    }

    constructor (path: string)
      ensures Form() == RegisterForm("", "", "", "", "") && !loading
      ensures this.path == path && alerts == []
    {
      firstname, lastname, email, password, conPassword := "", "", "", "", "";
      loading := false;
      this.path := path;
      alerts := [];
    }

    /** `handleRgister`, with `register` reduced to whether it succeeds.
        Returns the payload sent, if any. A rejected form sends nothing and
        only raises its alert; a sent form ends with `loading` false, and
        only a successful registration navigates to "/login". */
    method HandleRegister(registerSucceeds: bool) returns (sent: Option<RegisterPayload>)
      modifies this`loading, this`path, this`alerts
      ensures Validate(Form()).Failure? ==>
        && sent == None
        && alerts == old(alerts) + [AlertFor(Validate(Form()).error)]
        && loading == old(loading) && path == old(path)
      ensures Validate(Form()).Success? ==>
        && sent == Some(Validate(Form()).value)
        && !loading
        && (registerSucceeds ==> path == "/login" && alerts == old(alerts) + [RegistrationSuccessful])
        && (!registerSucceeds ==> path == old(path) && alerts == old(alerts) + [RegistrationFailed])
    {
      var checked := Validate(Form());
      if checked.Failure? {
        alerts := alerts + [AlertFor(checked.error)];
        return None;
      }
      loading := true;
      sent := Some(checked.value);
      if registerSucceeds {
        alerts := alerts + [RegistrationSuccessful];
        path := "/login";
      } else {
        alerts := alerts + [RegistrationFailed];
      }
      loading := false;
    }
  }
}
