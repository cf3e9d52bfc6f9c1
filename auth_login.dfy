/**
 * The second iteration of the login page: the same modes and handlers as the
 * first, plus controlled signup fields and a per-field error record filled by
 * `validateForm` on submit.
 *
 * The verification screen is rendered instead of the login/signup form, so
 * each handler belongs to one of the two views; called while the other view
 * is shown, it changes nothing.
 */
module AuthLogin {
  import opened AuthCommon
  import opened FormValidation

  class LoginPage {
    var mode: Mode
    var userType: Role
    var email: string
    var emailError: string
    var verificationCode: string
    var socialLoginError: string
    var fullName: string
    var idNumber: string
    var password: string
    var confirmPassword: string
    var acceptedTerms: bool
    /** The record the last `validateForm` stored. */
    var fieldErrors: map<Key, Message>
    /** The roles handed to the `onLogin` callback so far, oldest first. */
    var logins: seq<Role>

    constructor ()
      ensures mode == Login && userType == Student
      ensures email == "" && emailError == "" && verificationCode == "" && socialLoginError == ""
      ensures fullName == "" && idNumber == "" && password == "" && confirmPassword == ""
      ensures !acceptedTerms && fieldErrors == map[] && logins == []
    {
      mode := Login;
      userType := Student;
      email := "";
      emailError := "";
      verificationCode := "";
      socialLoginError := "";
      fullName := "";
      idNumber := "";
      password := "";
      confirmPassword := "";
      acceptedTerms := false;
      fieldErrors := map[];
      logins := [];
    }

    /** The controlled fields as the rules read them. */
    function CurrentForm(): (f: Form)
      reads this
      ensures f.email == email && f.password == password && f.confirmPassword == confirmPassword
    {
      Form(email, password, fullName, idNumber, confirmPassword, acceptedTerms)
    }

    /**
     * The error shown under the email input: the submit-time record's entry
     * when there is one, the live error otherwise. Recorded messages are never
     * empty, so an entry always hides the live error.
     */
    function DisplayedEmailError(): (msg: string)
      reads this
      ensures Email in fieldErrors ==> msg == Text(fieldErrors[Email]) && msg != ""
      ensures Email !in fieldErrors ==> msg == emailError
    {
      if Email in fieldErrors then Text(fieldErrors[Email]) else emailError
    }

    /** `validateEmail`: accepts exactly the `@bu.edu` addresses and records the inline error. */
    method ValidateEmail(emailValue: string) returns (ok: bool)
      modifies this`emailError
      ensures ok <==> IsBuEmail(emailValue)
      ensures emailError == EmailCheckError(emailValue)
    {
      if !JsText.EndsWith(emailValue, BuSuffix) {
        emailError := DomainMessage;
        return false;
      }
      emailError := "";
      return true;
    }

    /**
     * `handleEmailChange`: stores the value and updates the live error; the
     * submit-time record is left as it was, so a stale entry there still wins
     * in `DisplayedEmailError`.
     */
    method HandleEmailChange(value: string)
      modifies this`email, this`emailError
      ensures mode != Verify ==> email == value && emailError == LiveEmailError(value)
      ensures mode == Verify ==> email == old(email) && emailError == old(emailError)
      ensures Email in fieldErrors ==> DisplayedEmailError() == old(DisplayedEmailError())
    {
      if mode == Verify {
        return;
      }
      email := value;
      if value != "" {
        var _ := ValidateEmail(value);
      } else {
        emailError := "";
      }
    }

    /** `handleSocialLogin`: never logs in; only shows an error naming the provider. */
    method HandleSocialLogin(provider: Provider)
      modifies this`socialLoginError
      ensures mode != Verify ==> socialLoginError == SocialLoginMessage(provider)
      ensures mode == Verify ==> socialLoginError == old(socialLoginError)
    {
      if mode != Verify {
        socialLoginError := SocialLoginMessage(provider);
      }
    }

    /** `validateForm`: stores the error record and passes exactly when it is empty. */
    method ValidateForm() returns (ok: bool)
      modifies this`fieldErrors
      ensures fieldErrors == FormErrors(mode, userType, CurrentForm())
      ensures ok <==> fieldErrors == map[]
    {
      var errors := CollectErrors(mode, userType, CurrentForm());
      fieldErrors := errors;
      ok := |errors| == 0;
    }

    /**
     * `handleSubmit`: a failing form changes no mode and logs nobody in; a
     * passing signup moves to verification, a passing login hands the role to
     * `onLogin`. Both tests read the mode as it was when the event fired.
     */
    method HandleSubmit()
      modifies this`fieldErrors, this`mode, this`logins
      ensures old(mode) != Verify ==> fieldErrors == FormErrors(old(mode), userType, CurrentForm())
      ensures fieldErrors != map[] && old(mode) != Verify ==> mode == old(mode) && logins == old(logins)
      ensures fieldErrors == map[] && old(mode) == Signup ==> mode == Verify && logins == old(logins)
      ensures fieldErrors == map[] && old(mode) == Login ==> mode == Login && logins == old(logins) + [userType]
      ensures old(mode) == Verify ==> mode == Verify && logins == old(logins) && fieldErrors == old(fieldErrors)
    {
      if mode == Verify {
        return;
      }
      var shown := mode;
      var ok := ValidateForm();
      if !ok {
        return;
      }
      if shown == Signup {
        mode := Verify;
      }
      if shown == Login {
        logins := logins + [userType];
      }
    }

    /** `handleVerification`: on the verification screen, logs in with the current role whatever code was typed. */
    method HandleVerification()
      modifies this`logins
      ensures mode == Verify ==> logins == old(logins) + [userType]
      ensures mode != Verify ==> logins == old(logins)
    {
      if mode == Verify {
        logins := logins + [userType];
      }
    }

    /** The verification-code input stores what was typed; nothing reads it. */
    method EnterVerificationCode(code: string)
      modifies this`verificationCode
      ensures mode == Verify ==> verificationCode == code
      ensures mode != Verify ==> verificationCode == old(verificationCode)
    {
      if mode == Verify {
        verificationCode := code;
      }
    }

    /** "Back to login" on the verification screen. */
    method BackToLogin()
      modifies this`mode
      ensures old(mode) == Verify ==> mode == Login
      ensures old(mode) != Verify ==> mode == old(mode)
    {
      if mode == Verify {
        mode := Login;
      }
    }

    /** The tabs: their callback type admits only the login and signup modes. */
    method SelectTab(tab: TabMode)
      modifies this`mode
      ensures old(mode) != Verify ==> mode == tab
      ensures old(mode) == Verify ==> mode == Verify
    {
      if mode != Verify {
        mode := tab;
      }
    }

    /** The footer link swaps login and signup. */
    method ToggleFooter()
      modifies this`mode
      ensures old(mode) != Verify ==> mode == FooterToggle(old(mode))
      ensures old(mode) == Verify ==> mode == Verify
    {
      if mode != Verify {
        mode := FooterToggle(mode);
      }
    }

    /** The role selector. */
    method SelectRole(role: Role)
      modifies this`userType
      ensures mode != Verify ==> userType == role
      ensures mode == Verify ==> userType == old(userType)
    {
      if mode != Verify {
        userType := role;
      }
    }
  }

  /**
   * In login mode the signup-only fields and the role have no effect: two
   * forms that agree on email and password get the same record.
   */
  lemma LoginIgnoresSignupFields(role1: Role, f1: Form, role2: Role, f2: Form)
    requires f1.email == f2.email && f1.password == f2.password
    ensures FormErrors(Login, role1, f1) == FormErrors(Login, role2, f2)
  {
  }
}
