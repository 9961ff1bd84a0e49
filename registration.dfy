/** The sign-up form: six text fields, an error line, the ordered validation and the
    submit handler that only reaches the server when validation passes. */
module Registration {
  import opened Wrappers
  import opened Text
  import opened Validators

  const FillAllFields := "Please fill in all fields."
  const InvalidEmail := "Invalid email format."
  const InvalidPhone := "Invalid Nepal phone number."
  const WeakPassword := "Password must be 8+ chars with uppercase, lowercase, number & special char."
  const PasswordMismatch := "Passwords do not match."
  const Registered := "Registration successful!"
  const RegistrationFailed := "Registration failed"
  const ServerError := "Server error"

  /** The `name` attributes of the form's inputs. */
  datatype Field = FullName | Dob | Phone | Email | Password | ConfirmPassword

  datatype Form = Form(fullname: string, dob: string, phone: string, email: string,
                       password: string, confirmPassword: string)
  {
    function Get(f: Field): string {
      match f
      case FullName => fullname
      case Dob => dob
      case Phone => phone
      case Email => email
      case Password => password
      case ConfirmPassword => confirmPassword
    }

    /** `{ ...formData, [name]: value }` */
    function Set(f: Field, value: string): (r: Form)
      ensures r.Get(f) == value
      ensures forall g: Field | g != f :: r.Get(g) == Get(g)
    {
      match f
      case FullName => this.(fullname := value)
      case Dob => this.(dob := value)
      case Phone => this.(phone := value)
      case Email => this.(email := value)
      case Password => this.(password := value)
      case ConfirmPassword => this.(confirmPassword := value)
    }
  }

  const EmptyForm := Form("", "", "", "", "", "")

  predicate AllFilled(form: Form) {
    forall f: Field :: form.Get(f) != ""
  }

  /** `validate`: the message of the first check that fails, or "" when all pass. The
      checks run in a fixed order: all fields filled, email, phone, password policy,
      confirmation. */
  function Validate(form: Form): (msg: string)
    ensures msg == FillAllFields <==> !AllFilled(form)
    ensures msg == InvalidEmail <==> AllFilled(form) && !IsEmail(form.email)
    ensures msg == InvalidPhone <==>
      AllFilled(form) && IsEmail(form.email) && !IsNepalPhone(form.phone)
    ensures msg == WeakPassword <==>
      AllFilled(form) && IsEmail(form.email) && IsNepalPhone(form.phone)
      && !IsStrongPassword(form.password)
    ensures msg == PasswordMismatch <==>
      AllFilled(form) && IsEmail(form.email) && IsNepalPhone(form.phone)
      && IsStrongPassword(form.password) && form.password != form.confirmPassword
    ensures msg == "" <==>
      AllFilled(form) && IsEmail(form.email) && IsNepalPhone(form.phone)
      && IsStrongPassword(form.password) && form.password == form.confirmPassword
  {
    if form.fullname == "" || form.dob == "" || form.phone == "" || form.email == ""
       || form.password == "" || form.confirmPassword == "" then
      assert form.Get(FullName) == "" || form.Get(Dob) == "" || form.Get(Phone) == ""
        || form.Get(Email) == "" || form.Get(Password) == "" || form.Get(ConfirmPassword) == "";
      FillAllFields
    else if !IsEmail(form.email) then InvalidEmail
    else if !IsNepalPhone(form.phone) then InvalidPhone
    else if !IsStrongPassword(form.password) then WeakPassword
    else if form.password != form.confirmPassword then PasswordMismatch
    else ""
  }

  /** A form that validates has its phone in one of the two accepted lengths and a
      confirmation that is itself a valid password. */
  lemma ValidFormFacts(form: Form)
    requires Validate(form) == ""
    ensures |form.phone| == 10 || |form.phone| == 14
    ensures IsStrongPassword(form.confirmPassword) && |form.confirmPassword| >= 8
    ensures EmailPattern(form.email)
  {
    EmailPatternIff(form.email);
  }

  /** What the registration endpoint answered: an HTTP status with the body's `message`,
      or a failure of the request or of reading its body. */
  datatype RegisterReply = Status(code: int, message: string) | NetworkError

  /** The toast shown for a reply: success only for status 201, the body's message (or
      `RegistrationFailed` when it is empty) for any other status, `ServerError` when the
      request failed. The toast never has an empty text. */
  function ReplyToast(reply: RegisterReply): (t: Toast)
    ensures t.ToastSuccess? <==> reply.Status? && reply.code == 201
    ensures reply.Status? && reply.code == 201 ==> t == ToastSuccess(Registered)
    ensures reply.Status? && reply.code != 201 && reply.message != "" ==> t == ToastError(reply.message)
    ensures reply.Status? && reply.code != 201 && reply.message == "" ==> t == ToastError(RegistrationFailed)
    ensures reply.NetworkError? ==> t == ToastError(ServerError)
    ensures t.text != ""
  {
    match reply
    case Status(code, message) =>
      if code == 201 then ToastSuccess(Registered)
      else ToastError(if message != "" then message else RegistrationFailed)
    case NetworkError => ToastError(ServerError)
  }

  class RegistrationPage {
    var form: Form
    var error: string

    constructor ()
      ensures form == EmptyForm && error == ""
    {
      form := EmptyForm;
      error := "";
    }

    /** An input's onChange: store the value under the input's name, clear the error. */
    method HandleChange(field: Field, value: string)
      modifies this
      ensures form == old(form).Set(field, value)
      ensures form.Get(field) == value
      ensures forall g: Field | g != field :: form.Get(g) == old(form).Get(g)
      ensures error == ""
    {
      form := form.Set(field, value);
      error := "";
    }

    /** The submit handler. A failing validation sets the error and returns before any
        request; otherwise the form is sent, and a 201 clears it and navigates away. */
    method HandleSubmit(reply: RegisterReply) returns (requested: bool, toast: Toast, navigated: bool)
      modifies this
      ensures requested <==> Validate(old(form)) == ""
      ensures !requested ==> error == Validate(old(form)) && error != ""
      ensures !requested ==> form == old(form) && toast == ToastError(error) && !navigated
      ensures requested ==> error == old(error) && toast == ReplyToast(reply)
      ensures requested ==> (navigated <==> reply.Status? && reply.code == 201)
      ensures requested ==> form == if navigated then EmptyForm else old(form)
    {
      var validationError := Validate(form);
      if validationError != "" {
        error := validationError;
        toast := ToastError(validationError);
        requested, navigated := false, false;
        return;
      }
      requested := true;
      toast := ReplyToast(reply);
      navigated := reply.Status? && reply.code == 201;
      if navigated {
        form := EmptyForm;
      }
    }
  }
}
