/**
 * The password-reset screen: an e-mail phase that requests a code, then a
 * code phase (`codeSent`) that submits the code and a new password. Both
 * handlers validate with an ordered chain of checks, and both treat a failed
 * request exactly like a successful one.
 */
module ForgotPasswordScreen {
  import opened Common
  import opened Validation
  import opened Routes
  import AuthContext

  datatype SendCodeError = EmailMissing | EmailInvalid
  {
    function Message(): string {
      match this
      case EmailMissing => "Please enter your email"
      case EmailInvalid => "Please enter a valid email"
    }
  }

  datatype ResetError = CodeMissing | PasswordMissing | PasswordTooShort | PasswordMismatch
  {
    function Message(): string {
      match this
      case CodeMissing => "Please enter verification code"
      case PasswordMissing => "Please enter a new password"
      case PasswordTooShort => "Password must be at least 8 characters"
      case PasswordMismatch => "Passwords do not match"
    }
  }

  const CodeSentMessage: string := "Verification code sent to your email"
  const ResetSuccessMessage: string := "Password reset successful"

  /** The two checks of `handleSendCode`, in order; the address is not trimmed. */
  function SendCodeChecks(email: string): seq<Check<SendCodeError>> {
    [Check(email != "", EmailMissing), Check(ValidateEmail(email), EmailInvalid)]
  }

  /** The error `handleSendCode` shows, or `None` when a code is requested. */
  function CheckSendCode(email: string): (r: Option<SendCodeError>)
    ensures r.None? <==> EmailPatternMatches(email)
    ensures email == "" ==> r == Some(EmailMissing)
    ensures email != "" && !EmailPatternMatches(email) ==> r == Some(EmailInvalid)
  {
    SendCodeChecksInOrder(email);
    FirstFailing(SendCodeChecks(email))
  }

  lemma SendCodeChecksInOrder(email: string)
    ensures email != "" && !EmailPatternMatches(email) ==>
      FirstFailing(SendCodeChecks(email)) == Some(EmailInvalid)
  {
    if email != "" && !EmailPatternMatches(email) {
      FirstFailingReportsFirst(SendCodeChecks(email), 1);
    }
  }

  /** The four checks of `handleResetPassword`, in order; nothing is trimmed. */
  function ResetChecks(code: string, newPassword: string, confirm: string): seq<Check<ResetError>> {
    [ Check(code != "", CodeMissing),
      Check(newPassword != "", PasswordMissing),
      Check(ValidatePassword(newPassword), PasswordTooShort),
      Check(newPassword == confirm, PasswordMismatch) ]
  }

  /** The error `handleResetPassword` shows, or `None` when the reset is requested. */
  function CheckReset(code: string, newPassword: string, confirm: string): (r: Option<ResetError>)
    ensures r.None? <==> code != "" && |newPassword| >= 8 && newPassword == confirm
    ensures code == "" ==> r == Some(CodeMissing)
    ensures code != "" && newPassword == "" ==> r == Some(PasswordMissing)
    ensures code != "" && 0 < |newPassword| < 8 ==> r == Some(PasswordTooShort)
    ensures code != "" && |newPassword| >= 8 && newPassword != confirm ==> r == Some(PasswordMismatch)
  {
    ResetChecksInOrder(code, newPassword, confirm);
    FirstFailing(ResetChecks(code, newPassword, confirm))
  }

  lemma ResetChecksInOrder(code: string, newPassword: string, confirm: string)
    ensures var c := ResetChecks(code, newPassword, confirm);
      && (code != "" && newPassword == "" ==> FirstFailing(c) == Some(PasswordMissing))
      && (code != "" && 0 < |newPassword| < 8 ==> FirstFailing(c) == Some(PasswordTooShort))
      && (code != "" && |newPassword| >= 8 && newPassword != confirm ==> FirstFailing(c) == Some(PasswordMismatch))
  {
    var c := ResetChecks(code, newPassword, confirm);
    if code == "" {
    } else if newPassword == "" {
      FirstFailingReportsFirst(c, 1);
    } else if |newPassword| < 8 {
      FirstFailingReportsFirst(c, 2);
    } else if newPassword != confirm {
      FirstFailingReportsFirst(c, 3);
    }
  }

  /** The screen's state. The e-mail input is shown only in the e-mail phase. */
  class ForgotPasswordForm {
    var email: string
    var verificationCode: string
    var newPassword: string
    var confirmPassword: string
    var loading: bool
    var error: string
    var success: string
    var codeSent: bool

    /** The code phase is entered only with an address that passed validation, which then cannot be edited. */
    ghost predicate Valid()
      reads this`codeSent, this`email
    {
      codeSent ==> EmailPatternMatches(email)
    }

    /** The e-mail phase, every field empty and no message shown. */
    constructor ()
      ensures Valid()
      ensures email == "" && verificationCode == "" && newPassword == "" && confirmPassword == ""
      ensures !loading && error == "" && success == "" && !codeSent
    {
      email, verificationCode, newPassword, confirmPassword := "", "", "", "";
      loading, error, success, codeSent := false, "", "", false;
    }

    /** Typing into the e-mail input, which exists only while no code has been sent. */
    method SetEmail(value: string)
      requires Valid() && !codeSent
      modifies this`email
      ensures Valid()
      ensures email == value
    {
      email := value;
    }

    /**
     * `handleSendCode`. An empty or malformed address only sets the error.
     * Otherwise the messages are cleared, `forgotPassword` is awaited, and on
     * either outcome the success message is shown and the code phase entered.
     */
    method HandleSendCode(auth: AuthContext.AuthProvider, outcome: Settled)
      requires Valid() && auth.Valid()
      modifies this`error, this`success, this`loading, this`codeSent, auth
      ensures Valid() && auth.Valid()
      ensures old(CheckSendCode(email)).Some? ==>
        && error == old(CheckSendCode(email)).value.Message()
        && success == old(success) && loading == old(loading) && codeSent == old(codeSent)
        && auth.State() == old(auth.State())
      ensures old(CheckSendCode(email)).None? ==>
        && codeSent && success == CodeSentMessage && error == "" && !loading
        && auth.State() == AuthContext.RequestStep(old(auth.State()))
    {
      var r := CheckSendCode(email);
      if r.Some? {
        error := r.value.Message();
        return;
      }
      loading := true;
      error := "";
      success := "";
      var result := auth.ForgotPassword(email, outcome);
      if result.Fulfilled? {
        success := CodeSentMessage;
        codeSent := true;
      } else {
        success := CodeSentMessage;
        codeSent := true;
      }
      loading := false;
    }

    /**
     * `handleResetPassword`. Invalid input only sets the error. Otherwise
     * `resetPassword` is awaited and, on either outcome, the success message
     * is shown and Login is the (delayed) navigation target.
     */
    method HandleResetPassword(auth: AuthContext.AuthProvider, outcome: Settled) returns (nav: Option<AuthRoute>)
      requires Valid() && auth.Valid()
      modifies this`error, this`success, this`loading, auth
      ensures Valid() && auth.Valid()
      ensures old(CheckReset(verificationCode, newPassword, confirmPassword)).Some? ==>
        && nav == None
        && error == old(CheckReset(verificationCode, newPassword, confirmPassword)).value.Message()
        && success == old(success) && loading == old(loading)
        && auth.State() == old(auth.State())
      ensures old(CheckReset(verificationCode, newPassword, confirmPassword)).None? ==>
        && nav == Some(Login) && success == ResetSuccessMessage && error == "" && !loading
        && auth.State() == AuthContext.RequestStep(old(auth.State()))
    {
      var r := CheckReset(verificationCode, newPassword, confirmPassword);
      if r.Some? {
        error := r.value.Message();
        return None;
      }
      loading := true;
      error := "";
      success := "";
      var result := auth.ResetPassword(verificationCode, newPassword, email, outcome);
      if result.Fulfilled? {
        success := ResetSuccessMessage;
      } else {
        success := ResetSuccessMessage;
      }
      nav := Some(Login);
      loading := false;
    }

    /**
     * The Resend Code button: back to the e-mail phase with the code-phase
     * inputs and both messages cleared. The address is kept, and an address
     * that had reached the code phase passes the send-code checks again.
     */
    method ResendCode()
      requires Valid()
      modifies this`codeSent, this`verificationCode, this`newPassword, this`confirmPassword, this`error, this`success
      ensures Valid()
      ensures !codeSent && verificationCode == "" && newPassword == "" && confirmPassword == ""
      ensures error == "" && success == ""
      ensures email == old(email)
      ensures old(codeSent) ==> CheckSendCode(email).None?
    {
      codeSent := false;
      verificationCode, newPassword, confirmPassword := "", "", "";
      error, success := "", "";
    }
  }
}
