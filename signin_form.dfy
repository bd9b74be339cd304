/**
 * The sign-in page: validate() with its two field errors, and the submit
 * handler that calls the login service only for a valid form. What the
 * service answers is passed in as a LoginReply.
 */
module SignInPage {
  import opened FormRules

  /** The per-field messages; "" means no error. */
  datatype SignInErrors = SignInErrors(email: string, password: string)

  /** What the login call gives back: a user, nothing, or an exception with its message. */
  datatype LoginReply = User | NoUser | Threw(message: string)

  const GENERIC_LOGIN_ERROR: string := "An error occurred during login"
  const BAD_CREDENTIALS: string := "Invalid email or password"

  /** The email message: required, then the address pattern. */
  function EmailMessage(s: string): (r: string)
    ensures r == "" <==> EmailPattern(s)
    ensures s == "" ==> r == "Email is required"
  {
    EmailNotBlank(s);
    if s == "" then "Email is required"
    else if !EmailPattern(s) then "Enter a valid email address"
    else ""
  }

  /** The password message: required, then at least 6 characters. */
  function PasswordMessage(s: string): (r: string)
    ensures r == "" <==> |s| >= 6
    ensures s == "" ==> r == "Password is required"
  {
    if s == "" then "Password is required"
    else if |s| < 6 then "Password must be at least 6 characters"
    else ""
  }

  class SignInForm {
    var email: string
    var password: string
    var errors: SignInErrors
    var error: string
    var loading: bool

    constructor ()
      ensures email == "" && password == "" && errors == SignInErrors("", "") && error == "" && !loading
    {
      email := "";
      password := "";
      errors := SignInErrors("", "");
      error := "";
      loading := false;
    }

    /** validate(): both messages replace the shown ones; valid when both are empty. */
    method Validate() returns (valid: bool)
      modifies this`errors
      ensures errors == SignInErrors(EmailMessage(email), PasswordMessage(password))
      ensures valid <==> EmailPattern(email) && |password| >= 6
    {
      valid := true;
      var temp := SignInErrors("", "");
      if email == "" {
        temp := temp.(email := "Email is required");
        valid := false;
      } else if !EmailPattern(email) {
        temp := temp.(email := "Enter a valid email address");
        valid := false;
      }
      if password == "" {
        temp := temp.(password := "Password is required");
        valid := false;
      } else if |password| < 6 {
        temp := temp.(password := "Password must be at least 6 characters");
        valid := false;
      }
      EmailNotBlank(email);
      errors := temp;
    }

    /**
     * handleSubmit: clears the banner error, validates, and only then calls
     * login. A user goes home; no user shows the bad-credentials text; an
     * exception shows its message, or the generic text when it has none.
     */
    method HandleSubmit(reply: LoginReply) returns (loginCalled: bool, goHome: bool)
      modifies this`errors, this`error, this`loading
      ensures errors == SignInErrors(EmailMessage(email), PasswordMessage(password))
      ensures loginCalled <==> EmailPattern(email) && |password| >= 6
      ensures goHome <==> loginCalled && reply == User
      ensures loading == (if loginCalled then false else old(loading))
      ensures !loginCalled || reply == User ==> error == ""
      ensures loginCalled && reply == NoUser ==> error == BAD_CREDENTIALS
      ensures loginCalled && reply.Threw? ==>
        error == (if reply.message != "" then reply.message else GENERIC_LOGIN_ERROR)
    {
      error := "";
      var valid := Validate();
      if !valid {
        return false, false;
      }
      loginCalled := true;
      loading := true;
      goHome := false;
      match reply {
        case User =>
          goHome := true;
        case NoUser =>
          error := BAD_CREDENTIALS;
        case Threw(message) =>
          error := if message != "" then message else GENERIC_LOGIN_ERROR;
      }
      loading := false;
    }
  }
}
