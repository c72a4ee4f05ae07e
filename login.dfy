/**
 * The e-mail sign-in / sign-up form: field validation, the mapping of the
 * authentication service's error codes to messages, the sign-in handler
 * and the password-reset handler.
 */
module Login {
  import opened Wrappers
  import opened JsString

  /** The translated messages the form can show, one per translation key. */
  datatype LoginError =
    | Credentials            // error_login_credentials
    | PasswordsEqual         // error_login_passwords_equals
    | UsernameMin            // error_login_username_min
    | UsernameMax            // error_login_username_max
    | UsernameSpaces         // error_login_username_spaces
    | UsernameEmpty          // error_login_username_empty
    | EmailEmpty             // error_login_email_empty
    | EmailUsed              // error_login_email_used
    | EmailNotFound          // error_login_email_not_found
    | PasswordIncorrect      // error_login_password_incorrect
    | ManyAttempts           // error_login_many_attemps
    | EmailInvalid           // error_login_email_invalid
    | PasswordMin            // error_login_password_min
    | EmailPasswordInvalid   // error_login_email_password_invalid

  /** What the user has typed, and which of the two forms is shown. */
  datatype Form = Form(email: string, password: string, repeatPassword: string, displayName: string, signInForm: bool)

  /** The messages `validate` itself can set, as opposed to those of the authentication service. */
  predicate IsFieldError(e: LoginError) {
    e.Credentials? || e.PasswordsEqual? || e.UsernameMin? || e.UsernameMax? || e.UsernameSpaces? || e.UsernameEmpty?
  }

  /** An e-mail or password that is empty once trimmed. */
  predicate Blank(f: Form) {
    Trim(f.email) == "" || Trim(f.password) == ""
  }

  /** A repeat that differs from a password of six or more characters. */
  predicate LongMismatch(f: Form) {
    f.password != f.repeatPassword && |f.password| >= 6
  }

  /** A display name the sign-up form accepts once trimmed. */
  predicate GoodName(name: string) {
    3 <= |Trim(name)| <= 20 && ' ' !in Trim(name)
  }

  /**
   * `validate`, as the message it decides on: blank credentials first; on the
   * sign-up form, then a mismatched repeat of a password of six or more
   * characters, then the trimmed name's length and inner spaces.
   */
  function Validate(f: Form): (r: Option<LoginError>)
    ensures r == Some(Credentials) <==> Blank(f)
    ensures r == Some(PasswordsEqual) <==> !Blank(f) && !f.signInForm && LongMismatch(f)
    ensures r == Some(UsernameMin) <==>
      !Blank(f) && !f.signInForm && !LongMismatch(f) && |Trim(f.displayName)| < 3
    ensures r == Some(UsernameMax) <==>
      !Blank(f) && !f.signInForm && !LongMismatch(f) && 3 <= |Trim(f.displayName)| && |Trim(f.displayName)| > 20
    ensures r == Some(UsernameSpaces) <==>
      !Blank(f) && !f.signInForm && !LongMismatch(f) && 3 <= |Trim(f.displayName)| <= 20 && ' ' in Trim(f.displayName)
    ensures r == None <==> !Blank(f) && (!f.signInForm ==> !LongMismatch(f) && GoodName(f.displayName))
    ensures r != Some(UsernameEmpty)
    ensures r.Some? ==> IsFieldError(r.value)
  {
    if Trim(f.email) == "" || Trim(f.password) == "" then Some(Credentials)
    else if f.signInForm then None
    else if f.password != f.repeatPassword && |f.password| >= 6 then Some(PasswordsEqual)
    else if |Trim(f.displayName)| < 3 then Some(UsernameMin)
    else if |Trim(f.displayName)| > 20 then Some(UsernameMax)
    else if ' ' in Trim(f.displayName) then Some(UsernameSpaces)
    else if Trim(f.displayName) == "" then Some(UsernameEmpty)
    else None
  }

  /** The authentication error codes the form recognises. */
  const KnownCodes: seq<string> := [
    "auth/email-already-in-use", "auth/user-not-found", "auth/wrong-password", "auth/too-many-requests",
    "auth/invalid-email", "auth/weak-password", "auth/invalid-credential"]

  /** The `switch (e.code)` of the sign-in handler's `catch`: any other code shows the credentials message. */
  function AuthErrorMessage(code: string): (r: LoginError)
    ensures r == Credentials <==> code !in KnownCodes
    ensures r != Credentials ==> !IsFieldError(r) && r != EmailEmpty
  {
    match code
    case "auth/email-already-in-use" => EmailUsed
    case "auth/user-not-found" => EmailNotFound
    case "auth/wrong-password" => PasswordIncorrect
    case "auth/too-many-requests" => ManyAttempts
    case "auth/invalid-email" => EmailInvalid
    case "auth/weak-password" => PasswordMin
    case "auth/invalid-credential" => EmailPasswordInvalid
    case _ => Credentials
  }

  /** Distinct recognised codes show distinct messages. */
  lemma {:induction false} AuthErrorMessageInjective(c1: string, c2: string)
    requires c1 in KnownCodes && c2 in KnownCodes
    requires AuthErrorMessage(c1) == AuthErrorMessage(c2)
    ensures c1 == c2
  {
    var i :| 0 <= i < |KnownCodes| && KnownCodes[i] == c1;
    var j :| 0 <= j < |KnownCodes| && KnownCodes[j] == c2;
    assert i == j by {
      assert forall k :: 0 <= k < |KnownCodes| ==> AuthErrorMessage(KnownCodes[k]) == [EmailUsed, EmailNotFound,
        PasswordIncorrect, ManyAttempts, EmailInvalid, PasswordMin, EmailPasswordInvalid][k];
    }
  }

  /** The call to the authentication service a press of the main button makes, if any. */
  datatype Attempt =
    | NoAttempt
    | SignIn(email: string, password: string)
    | SignUp(email: string, password: string, name: string)

  /**
   * The service call `handleSignin` makes as written. Its gate `if (err)`
   * tests what `validate` returns, and `validate` returns the (undefined)
   * result of `setError`, so the gate never closes: only the sign-up form's
   * own equality test can stop the call.
   */
  function AttemptAsWritten(f: Form): (a: Attempt)
    ensures f.signInForm ==> a == SignIn(f.email, f.password)
    ensures !f.signInForm ==> (a == NoAttempt <==> f.password != f.repeatPassword)
    ensures a.SignUp? ==> a == SignUp(f.email, f.password, Trim(f.displayName))
  {
    if f.signInForm then SignIn(f.email, f.password)
    else if f.password == f.repeatPassword then SignUp(f.email, f.password, Trim(f.displayName))
    else NoAttempt
  }

  /** As written, a blank sign-in form fails validation and still reaches the service. */
  lemma BlankSignInReachesService()
    ensures Validate(Form("", "", "", "", true)) == Some(Credentials)
    ensures AttemptAsWritten(Form("", "", "", "", true)) == SignIn("", "")
  {
    TrimUnpadded("");
  }

  /** As written, a one-letter display name fails validation and still signs up. */
  lemma ShortNameReachesService()
    ensures Validate(Form("a@b.co", "secret", "secret", "x", false)) == Some(UsernameMin)
    ensures AttemptAsWritten(Form("a@b.co", "secret", "secret", "x", false)) == SignUp("a@b.co", "secret", "x")
  {
    TrimUnpadded("a@b.co");
    TrimUnpadded("secret");
    TrimUnpadded("x");
  }

  /** The evidently intended call: none while `validate` reports an error. */
  function SigninAttempt(f: Form): (a: Attempt)
    ensures Validate(f).Some? ==> a == NoAttempt
    ensures Validate(f) == None ==> a == AttemptAsWritten(f)
  {
    if Validate(f).Some? then NoAttempt else AttemptAsWritten(f)
  }

  /** Every call the corrected handler makes is on a form that passes validation, with a well-formed name on sign-up. */
  lemma {:induction false} AttemptsAreValid(f: Form)
    requires SigninAttempt(f) != NoAttempt
    ensures !Blank(f)
    ensures SigninAttempt(f).SignUp? ==>
      f.password == f.repeatPassword && GoodName(f.displayName) && SigninAttempt(f).name == Trim(f.displayName)
    ensures SigninAttempt(f).SignUp? ==> !IsJsSpace(SigninAttempt(f).name[0])
  {
    if SigninAttempt(f).SignUp? {
      assert |Trim(f.displayName)| >= 3;
    }
  }

  /**
   * A mismatched repeat of a password shorter than six characters passes
   * validation yet makes no call: the press does nothing and shows nothing.
   */
  lemma ShortMismatchIsSilent()
    ensures Validate(Form("a@b.co", "abc", "abd", "player", false)) == None
    ensures SigninAttempt(Form("a@b.co", "abc", "abd", "player", false)) == NoAttempt
  {
    TrimUnpadded("a@b.co");
    TrimUnpadded("abc");
    PlayerIsGoodName();
    assert "abc" != "abd" by { assert "abc"[2] != "abd"[2]; }
  }

  /** Helper for `ShortMismatchIsSilent`: the sample name passes the name checks. */
  lemma PlayerIsGoodName()
    ensures GoodName("player")
  {
    TrimUnpadded("player");
  }

  /** The form component's state. */
  class LoginForm {
    var email: string
    var password: string
    var repeatPassword: string
    var displayName: string
    var loading: bool
    var error: Option<LoginError>
    var signInForm: bool

    /** The form as the handlers see it. */
    function Current(): (f: Form)
      reads this
      ensures f.email == email && f.signInForm == signInForm && f.displayName == displayName
      ensures f.password == password && f.repeatPassword == repeatPassword
    {
      Form(email, password, repeatPassword, displayName, signInForm)
    }

    constructor ()
      ensures email == "" && password == "" && repeatPassword == "" && displayName == ""
      ensures !loading && error == None && signInForm
    {
      email := "";
      password := "";
      repeatPassword := "";
      displayName := "";
      loading := false;
      error := None;
      signInForm := true;
    }

    /** The link between the two forms. */
    method ChangeForm()
      modifies this`signInForm
      ensures signInForm == !old(signInForm)
    {
      signInForm := !signInForm;
    }

    /**
     * `handleForgot`: with no e-mail typed it shows the empty-e-mail message;
     * otherwise it asks the service to send a reset mail to that address
     * (returned) and clears the message.
     */
    method Forgot() returns (sentTo: Option<string>)
      modifies this`error
      ensures email == "" ==> sentTo == None && error == Some(EmailEmpty)
      ensures email != "" ==> sentTo == Some(email) && error == None
    {
      if email == "" {
        error := Some(EmailEmpty);
        sentTo := None;
        return;
      }
      sentTo := Some(email);
      error := None;
    }

    /**
     * `handleSignin`, with the corrected gate. `failure` is how the service
     * answers the call, if one is made: `None` for success, or the error code
     * it rejects with. The message shown afterwards is the validation error,
     * the mapped service error, or none; the spinner is off either way.
     */
    method Signin(failure: Option<string>) returns (attempt: Attempt)
      modifies this`loading, this`error
      ensures attempt == SigninAttempt(old(Current()))
      ensures Validate(old(Current())).Some? ==> error == Validate(old(Current()))
      ensures Validate(old(Current())) == None && attempt != NoAttempt && failure.Some? ==>
        error == Some(AuthErrorMessage(failure.value))
      ensures Validate(old(Current())) == None && (attempt == NoAttempt || failure == None) ==> error == None
      ensures !loading
    {
      loading := true;
      error := None;
      var err := Validate(Current());
      if err.Some? {
        loading := false;
        error := err;
        attempt := NoAttempt;
        return;
      }
      attempt := AttemptAsWritten(Current());
      if attempt != NoAttempt && failure.Some? {
        error := Some(AuthErrorMessage(failure.value));
      }
      loading := false;
    }
  }
}
