/** The login form: the ordered checks before the request, the error line and the
    loading flag around the request. */
module Login {
  import opened Wrappers
  import opened Validators

  const MissingFields := "Please enter both email and password."
  const BadEmail := "Please enter a valid email address."
  const BadPassword := "Password must be at least 8 characters long, contain at least one uppercase letter, one lowercase letter, one number, and one special character."
  const LoginFailed := "Login failed"
  const ServerError := "Server error"
  const LoginSucceeded := "Login successful!"

  /** `validatePassword`: the same policy as the sign-up form's password check. */
  predicate ValidatePassword(password: string)
    ensures ValidatePassword(password) <==> PasswordPattern(password)
  {
    PasswordPatternIff(password);
    IsStrongPassword(password)
  }

  /** The message of the first failing check before the request, or "" when the request
      may be sent: both fields filled, then the email shape, then the password policy. */
  function PrecheckError(email: string, password: string): (msg: string)
    ensures msg == "" <==> email != "" && password != "" && IsEmail(email) && ValidatePassword(password)
    ensures msg == MissingFields <==> email == "" || password == ""
    ensures msg == BadEmail <==> email != "" && password != "" && !IsEmail(email)
    ensures msg == BadPassword <==>
      email != "" && password != "" && IsEmail(email) && !ValidatePassword(password)
  {
    if email == "" || password == "" then MissingFields
    else if !IsEmail(email) then BadEmail
    else if !ValidatePassword(password) then BadPassword
    else ""
  }

  /** What the login endpoint answered: success, a refusal carrying the body's `message`,
      or a failure of the request or of reading its body. */
  datatype LoginReply = Accepted | Refused(message: string) | NetworkError

  /** The error line after a request: none on success, `data.message || "Login failed"`
      on a refusal, "Server error" when the request failed. */
  function ReplyError(reply: LoginReply): (msg: string)
    ensures msg == "" <==> reply.Accepted?
    ensures reply.Refused? && reply.message != "" ==> msg == reply.message
    ensures reply.Refused? && reply.message == "" ==> msg == LoginFailed
    ensures reply.NetworkError? ==> msg == ServerError
  {
    match reply
    case Accepted => ""
    case Refused(message) => if message != "" then message else LoginFailed
    case NetworkError => ServerError
  }

  /** The toast shown after a request: success exactly when the login was accepted,
      otherwise an error toast with the same text as the error line. */
  function ReplyToast(reply: LoginReply): (t: Toast)
    ensures t.ToastSuccess? <==> reply.Accepted?
    ensures reply.Accepted? ==> t == ToastSuccess(LoginSucceeded)
    ensures !reply.Accepted? ==> t == ToastError(ReplyError(reply)) && t.text != ""
  {
    if reply.Accepted? then ToastSuccess(LoginSucceeded) else ToastError(ReplyError(reply))
  }

  class LoginPage {
    var email: string
    var password: string
    var errorMsg: string
    var loading: bool

    /** Between two submissions the page is never left loading. */
    ghost predicate Valid()
      reads this
    {
      !loading
    }

    constructor ()
      ensures Valid() && email == "" && password == "" && errorMsg == ""
    {
      email, password, errorMsg, loading := "", "", "", false;
    }

    /** The email input's onChange. */
    method ChangeEmail(text: string)
      modifies this
      ensures email == text
      ensures password == old(password) && errorMsg == old(errorMsg) && loading == old(loading)
    {
      email := text;
    }

    /** The password input's onChange. */
    method ChangePassword(text: string)
      modifies this
      ensures password == text
      ensures email == old(email) && errorMsg == old(errorMsg) && loading == old(loading)
    {
      password := text;
    }

    /** The submit handler: clear the error, run the checks in order (each failure sets
        its own message and returns), then send the request with `loading` set and
        clear `loading` when it settles, whatever the outcome. The failed checks only set
        the error line; a request always ends in a toast. */
    method HandleSubmit(reply: LoginReply) returns (requested: bool, toast: Option<Toast>, navigated: bool)
      requires Valid()
      modifies this
      ensures Valid()
      ensures requested <==> PrecheckError(email, password) == ""
      ensures !requested ==> errorMsg == PrecheckError(email, password)
      ensures requested ==> errorMsg == ReplyError(reply)
      ensures !requested ==> toast == None
      ensures requested ==> toast == Some(ReplyToast(reply))
      ensures navigated <==> requested && reply.Accepted?
      ensures email == old(email) && password == old(password)
    {
      errorMsg := "";
      requested, toast, navigated := false, None, false;
      if email == "" || password == "" {
        errorMsg := MissingFields;
        return;
      }
      if !IsEmail(email) {
        errorMsg := BadEmail;
        return;
      }
      if !ValidatePassword(password) {
        errorMsg := BadPassword;
        return;
      }
      loading := true;
      requested := true;
      match reply {
        case Accepted =>
          toast := Some(ToastSuccess(LoginSucceeded));
          navigated := true;
        case Refused(message) =>
          errorMsg := if message != "" then message else LoginFailed;
          toast := Some(ToastError(errorMsg));
        case NetworkError =>
          errorMsg := ServerError;
          toast := Some(ToastError(errorMsg));
      }
      loading := false;
    }
  }
}
