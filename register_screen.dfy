/**
 * The registration screen: six ordered checks of which the first failing
 * one is shown, and the submit handler, which reaches the Login screen
 * whether or not `register` succeeds.
 */
module RegisterScreen {
  import opened Common
  import opened Text
  import opened Validation
  import opened Routes
  import AuthContext

  datatype RegisterError =
    | NameMissing
    | EmailMissing
    | EmailInvalid
    | PasswordMissing
    | PasswordTooShort
    | PasswordMismatch
  {
    function Message(): string {
      match this
      case NameMissing => "Please enter your name"
      case EmailMissing => "Please enter your email"
      case EmailInvalid => "Please enter a valid email"
      case PasswordMissing => "Please enter a password"
      case PasswordTooShort => "Password must be at least 8 characters"
      case PasswordMismatch => "Passwords do not match"
    }
  }

  /** The checks of `validateForm`, in order. Only the name is trimmed. */
  function RegisterChecks(name: string, email: string, password: string, confirm: string): seq<Check<RegisterError>> {
    [ Check(Trim(name) != "", NameMissing),
      Check(email != "", EmailMissing),
      Check(ValidateEmail(email), EmailInvalid),
      Check(password != "", PasswordMissing),
      Check(ValidatePassword(password), PasswordTooShort),
      Check(password == confirm, PasswordMismatch) ]
  }

  /**
   * The error `validateForm` reports, or `None` when the form is valid. Each
   * error is reported exactly when its check fails and all earlier ones pass.
   */
  function CheckRegisterForm(name: string, email: string, password: string, confirm: string): (r: Option<RegisterError>)
    ensures r.None? <==>
      !IsBlank(name) && EmailPatternMatches(email) && |password| >= 8 && password == confirm
    ensures IsBlank(name) ==> r == Some(NameMissing)
    ensures !IsBlank(name) && email == "" ==> r == Some(EmailMissing)
    ensures !IsBlank(name) && email != "" && !EmailPatternMatches(email) ==> r == Some(EmailInvalid)
    ensures !IsBlank(name) && EmailPatternMatches(email) && password == "" ==> r == Some(PasswordMissing)
    ensures !IsBlank(name) && EmailPatternMatches(email) && 0 < |password| < 8 ==> r == Some(PasswordTooShort)
    ensures !IsBlank(name) && EmailPatternMatches(email) && |password| >= 8 && password != confirm ==>
      r == Some(PasswordMismatch)
  {
    RegisterChecksPass(name, email, password, confirm);
    RegisterChecksInOrder(name, email, password, confirm);
    FirstFailing(RegisterChecks(name, email, password, confirm))
  }

  /** Which of the six checks pass, in terms of the fields. */
  lemma RegisterChecksPass(name: string, email: string, password: string, confirm: string)
    ensures var c := RegisterChecks(name, email, password, confirm);
      && |c| == 6
      && (c[0].passes <==> !IsBlank(name))
      && (c[1].passes <==> email != "")
      && (c[2].passes <==> EmailPatternMatches(email))
      && (c[3].passes <==> password != "")
      && (c[4].passes <==> |password| >= MinPasswordLength)
      && (c[5].passes <==> password == confirm)
  {
  }

  /** Case analysis on which check fails first. */
  lemma RegisterChecksInOrder(name: string, email: string, password: string, confirm: string)
    ensures var c := RegisterChecks(name, email, password, confirm);
      && (c[0].passes <==> !IsBlank(name))
      && (c[2].passes <==> EmailPatternMatches(email))
      && (!IsBlank(name) && email == "" ==> FirstFailing(c) == Some(EmailMissing))
      && (!IsBlank(name) && email != "" && !EmailPatternMatches(email) ==> FirstFailing(c) == Some(EmailInvalid))
      && (!IsBlank(name) && EmailPatternMatches(email) && password == "" ==> FirstFailing(c) == Some(PasswordMissing))
      && (!IsBlank(name) && EmailPatternMatches(email) && 0 < |password| < 8 ==>
            FirstFailing(c) == Some(PasswordTooShort))
      && (!IsBlank(name) && EmailPatternMatches(email) && |password| >= 8 && password != confirm ==>
            FirstFailing(c) == Some(PasswordMismatch))
  {
    var c := RegisterChecks(name, email, password, confirm);
    RegisterChecksPass(name, email, password, confirm);
    if !c[0].passes {
    } else if !c[1].passes {
      FirstFailingReportsFirst(c, 1);
    } else if !c[2].passes {
      FirstFailingReportsFirst(c, 2);
    } else if !c[3].passes {
      FirstFailingReportsFirst(c, 3);
    } else if !c[4].passes {
      FirstFailingReportsFirst(c, 4);
    } else if !c[5].passes {
      FirstFailingReportsFirst(c, 5);
    }
  }

  /** The screen's state: the four inputs, the loading flag and the error line. */
  class RegisterForm {
    var name: string
    var email: string
    var password: string
    var confirmPassword: string
    var loading: bool
    var error: string

    function Outcome(): Option<RegisterError>
      reads this`name, this`email, this`password, this`confirmPassword
    {
      CheckRegisterForm(name, email, password, confirmPassword)
    }

    constructor ()
      ensures name == "" && email == "" && password == "" && confirmPassword == ""
      ensures !loading && error == ""
    {
      name, email, password, confirmPassword := "", "", "", "";
      loading, error := false, "";
    }

    /** `validateForm`: reports the first failing check's message; a valid form leaves `error` alone. */
    method ValidateForm() returns (ok: bool)
      modifies this`error
      ensures ok <==> old(Outcome()).None?
      ensures error == if ok then old(error) else old(Outcome()).value.Message()
    {
      var r := CheckRegisterForm(name, email, password, confirmPassword);
      if r.Some? {
        error := r.value.Message();
        return false;
      }
      return true;
    }

    /**
     * `handleRegister`. An invalid form only sets the error. A valid one
     * clears the error, calls `register`, and goes to Login on both the
     * success and the failure path, ending with `loading` false.
     */
    method HandleRegister(auth: AuthContext.AuthProvider, outcome: Settled) returns (nav: Option<AuthRoute>)
      requires auth.Valid()
      modifies this`error, this`loading, auth
      ensures auth.Valid()
      ensures old(Outcome()).Some? ==>
        && nav == None && error == old(Outcome()).value.Message() && loading == old(loading)
        && auth.State() == old(auth.State())
      ensures old(Outcome()).None? ==>
        && nav == Some(Login) && error == "" && !loading
        && auth.State() == AuthContext.RequestStep(old(auth.State()))
    {
      var ok := ValidateForm();
      if !ok {
        return None;
      }
      loading := true;
      error := "";
      var result := auth.Register(email, password, name, outcome);
      if result.Fulfilled? {
        nav := Some(Login);
      } else {
        nav := Some(Login);
      }
      loading := false;
    }
  }
}
