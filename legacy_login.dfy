/**
 * The first iteration of the login page: one component holding the mode,
 * the chosen role, the email and its inline error, the verification code and
 * the social-login error. Only the email is validated.
 *
 * The verification screen is rendered instead of the login/signup form, so
 * each handler belongs to one of the two views; called while the other view
 * is shown, it changes nothing.
 */
module LegacyLogin {
  import opened AuthCommon

  class LoginPage {
    var mode: Mode
    var userType: Role
    var email: string
    var emailError: string
    var verificationCode: string
    var socialLoginError: string
    /** The roles handed to the `onLogin` callback so far, oldest first. */
    var logins: seq<Role>

    constructor ()
      ensures mode == Login && userType == Student
      ensures email == "" && emailError == "" && verificationCode == "" && socialLoginError == ""
      ensures logins == []
    {
      mode := Login;
      userType := Student;
      email := "";
      emailError := "";
      verificationCode := "";
      socialLoginError := "";
      logins := [];
    }

    /** `validateEmail`: accepts exactly the `@bu.edu` addresses and records the inline error. */
    method ValidateEmail(emailValue: string) returns (ok: bool)
      modifies this`emailError
      ensures ok <==> IsBuEmail(emailValue)
      ensures emailError == EmailCheckError(emailValue)
      ensures ok ==> emailError == ""
      ensures !ok ==> emailError == DomainMessage
    {
      if !JsText.EndsWith(emailValue, BuSuffix) {
        emailError := DomainMessage;
        return false;
      }
      emailError := "";
      return true;
    }

    /** `handleEmailChange`: stores the value; an empty value clears the error without validating. */
    method HandleEmailChange(value: string)
      modifies this`email, this`emailError
      ensures mode != Verify ==> email == value && emailError == LiveEmailError(value)
      ensures mode == Verify ==> email == old(email) && emailError == old(emailError)
    {
      if mode == Verify {
        return;
      }
      email := value;
      if value != "" {
        var _ := ValidateEmail(value);
      } else {
        emailError := "";
      }
    }

    /** `handleSocialLogin`: never logs in; only shows an error naming the provider. */
    method HandleSocialLogin(provider: Provider)
      modifies this`socialLoginError
      ensures mode != Verify ==> socialLoginError == SocialLoginMessage(provider)
      ensures mode == Verify ==> socialLoginError == old(socialLoginError)
    {
      if mode != Verify {
        socialLoginError := SocialLoginMessage(provider);
      }
    }

    /**
     * `handleSubmit`: a rejected email stops here; otherwise signup moves on to
     * verification and login hands the role to `onLogin`.
     */
    method HandleSubmit()
      modifies this`mode, this`emailError, this`logins
      ensures old(mode) != Verify ==> emailError == EmailCheckError(email)
      ensures !IsBuEmail(email) ==> mode == old(mode) && logins == old(logins)
      ensures IsBuEmail(email) && old(mode) == Signup ==> mode == Verify && logins == old(logins)
      ensures IsBuEmail(email) && old(mode) == Login ==> mode == Login && logins == old(logins) + [userType]
      ensures old(mode) == Verify ==> mode == Verify && logins == old(logins) && emailError == old(emailError)
    {
      if mode == Verify {
        return;
      }
      var ok := ValidateEmail(email);
      if !ok {
        return;
      }
      if mode == Signup {
        mode := Verify;
      } else if mode == Login {
        logins := logins + [userType];
      }
    }

    /** `handleVerification`: on the verification screen, logs in with the current role whatever code was typed. */
    method HandleVerification()
      modifies this`logins
      ensures mode == Verify ==> logins == old(logins) + [userType]
      ensures mode != Verify ==> logins == old(logins)
    {
      if mode == Verify {
        logins := logins + [userType];
      }
    }

    /** "Back to login" on the verification screen. */
    method BackToLogin()
      modifies this`mode
      ensures old(mode) == Verify ==> mode == Login
      ensures old(mode) != Verify ==> mode == old(mode)
    {
      if mode == Verify {
        mode := Login;
      }
    }

    /** The "Log In" and "Sign Up" tabs set the mode directly. */
    method SelectTab(tab: TabMode)
      modifies this`mode
      ensures old(mode) != Verify ==> mode == tab
      ensures old(mode) == Verify ==> mode == Verify
    {
      if mode != Verify {
        mode := tab;
      }
    }

    /** The footer link swaps login and signup. */
    method ToggleFooter()
      modifies this`mode
      ensures old(mode) != Verify ==> mode == FooterToggle(old(mode))
      ensures old(mode) == Verify ==> mode == Verify
    {
      if mode != Verify {
        mode := FooterToggle(mode);
      }
    }

    /** The role buttons. */
    method SelectRole(role: Role)
      modifies this`userType
      ensures mode != Verify ==> userType == role
      ensures mode == Verify ==> userType == old(userType)
    {
      if mode != Verify {
        userType := role;
      }
    }

    /** The verification-code input stores what was typed; nothing reads it. */
    method EnterVerificationCode(code: string)
      modifies this`verificationCode
      ensures mode == Verify ==> verificationCode == code
      ensures mode != Verify ==> verificationCode == old(verificationCode)
    {
      if mode == Verify {
        verificationCode := code;
      }
    }
  }
}
