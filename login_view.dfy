/**
 * The login screen's form state: e-mail and password fields, one optional
 * error per field, the `hasAttemptedSubmit` flag and the alert, over the
 * shared authentication view model.
 */
module Login {
  import opened Wrappers
  import opened Credentials
  import opened FormValidation
  import opened Auth

  const LoginFailedTitle: string := "登入失敗"
  const ErrorTitle: string := "錯誤"

  class LoginForm {
    const auth: AuthViewModel
    var email: string
    var password: string
    var showingLogin: bool   // the binding shared with the authentication screen
    var emailError: Option<string>
    var passwordError: Option<string>
    var hasAttemptedSubmit: bool
    var showAlert: bool
    var alertMessage: string
    var alertTitle: string

    /** A field without an error is empty or acceptable. */
    ghost predicate ErrorsSound()
      reads this
    {
      && (emailError.None? ==> email == "" || IsValidEmail(email))
      && (passwordError.None? ==> password == "" || IsValidPassword(password))
    }

    constructor (auth: AuthViewModel, showingLogin: bool)
      ensures this.auth == auth && this.showingLogin == showingLogin
      ensures email == "" && password == "" && emailError == None && passwordError == None
      ensures !hasAttemptedSubmit && !showAlert && alertMessage == "" && alertTitle == LoginFailedTitle
      ensures ErrorsSound()
    {
      this.auth := auth;
      this.showingLogin := showingLogin;
      email, password := "", "";
      emailError, passwordError := None, None;
      hasAttemptedSubmit, showAlert := false, false;
      alertMessage, alertTitle := "", LoginFailedTitle;
    }

    /** `isButtonDisabled` */
    predicate IsButtonDisabled()
      reads this, auth
    {
      email == "" || password == "" || emailError.Some? || passwordError.Some? || auth.isLoading
    }

    /** `validateEmail()` */
    method ValidateEmail()
      modifies this`emailError
      ensures emailError == SubmitTimeError(email, hasAttemptedSubmit, IsValidEmail(email),
                                            EmptyEmailMessage, BadEmailMessage)
    {
      if email == "" {
        emailError := if hasAttemptedSubmit then Some(EmptyEmailMessage) else None;
      } else if !IsValidEmail(email) {
        emailError := Some(BadEmailMessage);
      } else {
        emailError := None;
      }
    }

    /** `validatePassword()` */
    method ValidatePassword()
      modifies this`passwordError
      ensures passwordError == SubmitTimeError(password, hasAttemptedSubmit, IsValidPassword(password),
                                               EmptyPasswordMessage, TooShortMessage)
    {
      if password == "" {
        passwordError := if hasAttemptedSubmit then Some(EmptyPasswordMessage) else None;
      } else if !IsValidPassword(password) {
        passwordError := Some(TooShortMessage);
      } else {
        passwordError := None;
      }
    }

    /** `validateEmailRealTime()` */
    method ValidateEmailRealTime()
      modifies this`emailError
      ensures emailError == RealTimeError(email, IsValidEmail(email), BadEmailMessage)
    {
      if email != "" && !IsValidEmail(email) {
        emailError := Some(BadEmailMessage);
      } else if email == "" || IsValidEmail(email) {
        emailError := None;
      }
    }

    /** `validatePasswordRealTime()` */
    method ValidatePasswordRealTime()
      modifies this`passwordError
      ensures passwordError == RealTimeError(password, IsValidPassword(password), TooShortMessage)
    {
      if password != "" && !IsValidPassword(password) {
        passwordError := Some(TooShortMessage);
      } else if password == "" || IsValidPassword(password) {
        passwordError := None;
      }
    }

    /** `validateAll()` */
    method ValidateAll()
      modifies this`emailError, this`passwordError
      ensures emailError == SubmitTimeError(email, hasAttemptedSubmit, IsValidEmail(email),
                                            EmptyEmailMessage, BadEmailMessage)
      ensures passwordError == SubmitTimeError(password, hasAttemptedSubmit, IsValidPassword(password),
                                               EmptyPasswordMessage, TooShortMessage)
    {
      ValidateEmail();
      ValidatePassword();
    }

    /** `clearValidationErrors()` */
    method ClearValidationErrors()
      modifies this`emailError, this`passwordError, this`hasAttemptedSubmit
      ensures emailError == None && passwordError == None && !hasAttemptedSubmit
    {
      emailError, passwordError := None, None;
      hasAttemptedSubmit := false;
    }

    /** `showErrorAlert(_:)`: the title is "錯誤". */
    method ShowErrorAlert(message: string)
      modifies this`alertTitle, this`alertMessage, this`showAlert
      ensures alertTitle == ErrorTitle && alertMessage == message && showAlert
    {
      alertTitle := ErrorTitle;
      alertMessage := message;
      showAlert := true;
    }

    /** Typing in the e-mail field: `onChange(of: email)`. */
    method EditEmail(value: string)
      modifies this`email, this`emailError
      ensures email == value
      ensures emailError.Some? <==> value != "" && !IsValidEmail(value)
      ensures old(ErrorsSound()) ==> ErrorsSound()
    {
      email := value;
      ValidateEmailRealTime();
    }

    /** Typing in the password field: `onChange(of: password)`. */
    method EditPassword(value: string)
      modifies this`password, this`passwordError
      ensures password == value
      ensures passwordError.Some? <==> value != "" && !IsValidPassword(value)
      ensures old(ErrorsSound()) ==> ErrorsSound()
    {
      password := value;
      ValidatePasswordRealTime();
    }

    /**
     * The first half of the login button: mark the attempt and run every
     * check. The fields pass exactly when the input is acceptable, and they
     * always pass when the button was enabled.
     */
    method CheckForSubmit()
      modifies this`hasAttemptedSubmit, this`emailError, this`passwordError
      ensures hasAttemptedSubmit && ErrorsSound()
      ensures emailError == SubmitTimeError(email, true, IsValidEmail(email), EmptyEmailMessage, BadEmailMessage)
      ensures passwordError == SubmitTimeError(password, true, IsValidPassword(password),
                                               EmptyPasswordMessage, TooShortMessage)
      ensures emailError == None && passwordError == None <==> IsValidEmail(email) && IsValidPassword(password)
      ensures old(ErrorsSound() && !IsButtonDisabled()) ==> emailError == None && passwordError == None
    {
      ghost var wasEnabled := ErrorsSound() && !IsButtonDisabled();
      ghost var acceptable := IsValidEmail(email) && IsValidPassword(password);
      assert wasEnabled ==> acceptable;
      hasAttemptedSubmit := true;
      ValidateAll();
      SubmitAttemptPasses(email, IsValidEmail(email), EmptyEmailMessage, BadEmailMessage);
      SubmitAttemptPasses(password, IsValidPassword(password), EmptyPasswordMessage, TooShortMessage);
    }

    /**
     * The login button. `signInRequested` says whether a sign-in request went
     * out: exactly when both fields pass their checks.
     */
    method Submit() returns (signInRequested: bool)
      requires auth.Valid()
      modifies this`hasAttemptedSubmit, this`emailError, this`passwordError
      modifies this`alertTitle, this`alertMessage, this`showAlert, auth
      ensures auth.Valid() && hasAttemptedSubmit && ErrorsSound()
      ensures signInRequested <==> IsValidEmail(email) && IsValidPassword(password)
      ensures signInRequested <==> emailError == None && passwordError == None
      ensures emailError == SubmitTimeError(email, true, IsValidEmail(email), EmptyEmailMessage, BadEmailMessage)
      ensures passwordError == SubmitTimeError(password, true, IsValidPassword(password),
                                               EmptyPasswordMessage, TooShortMessage)
      ensures signInRequested ==>
                && auth.isLoading && auth.errorMessage == "" && auth.successMessage == ""
                && auth.isAuthenticated == old(auth.isAuthenticated) && auth.currentUser == old(auth.currentUser)
                && showAlert == old(showAlert) && alertTitle == old(alertTitle) && alertMessage == old(alertMessage)
      ensures !signInRequested ==>
                && unchanged(auth)
                && showAlert && alertTitle == ErrorTitle && alertMessage == FixErrorsMessage
      ensures old(ErrorsSound() && !IsButtonDisabled()) ==> signInRequested
    {
      CheckForSubmit();
      if emailError == None && passwordError == None {
        auth.ClearError();
        signInRequested := auth.SignIn(email, password);
      } else {
        ShowErrorAlert(FixErrorsMessage);
        signInRequested := false;
      }
    }

    /** The "立即註冊" link: clear the checks and show the register screen. */
    method GoToRegister()
      modifies this`emailError, this`passwordError, this`hasAttemptedSubmit, this`showingLogin
      ensures emailError == None && passwordError == None && !hasAttemptedSubmit && !showingLogin
    {
      ClearValidationErrors();
      showingLogin := false;
    }

    /** `onChange(of: authViewModel.isAuthenticated)`: a successful sign-in empties the form. */
    method AuthenticationChanged()
      modifies this`email, this`password, this`emailError, this`passwordError, this`hasAttemptedSubmit
      ensures auth.isAuthenticated ==>
                && email == "" && password == "" && emailError == None && passwordError == None
                && !hasAttemptedSubmit
      ensures !auth.isAuthenticated ==>
                && email == old(email) && password == old(password)
                && emailError == old(emailError) && passwordError == old(passwordError)
                && hasAttemptedSubmit == old(hasAttemptedSubmit)
      ensures old(ErrorsSound()) ==> ErrorsSound()
    {
      if auth.isAuthenticated {
        email, password := "", "";
        ClearValidationErrors();
      }
    }

    /** `onChange(of: authViewModel.errorMessage)`: a service error shows once loading is over. */
    method ErrorMessageChanged()
      modifies this`alertTitle, this`alertMessage, this`showAlert
      ensures auth.errorMessage != "" && !auth.isLoading ==>
                showAlert && alertTitle == ErrorTitle && alertMessage == auth.errorMessage
      ensures !(auth.errorMessage != "" && !auth.isLoading) ==>
                showAlert == old(showAlert) && alertTitle == old(alertTitle) && alertMessage == old(alertMessage)
    {
      if auth.errorMessage != "" && !auth.isLoading {
        ShowErrorAlert(auth.errorMessage);
      }
    }

    /** The alert's "確定" button: the alert closes and the service messages are cleared. */
    method AlertDismissed()
      modifies this`showAlert, auth
      ensures !showAlert
      ensures auth.errorMessage == "" && auth.successMessage == ""
      ensures auth.isAuthenticated == old(auth.isAuthenticated) && auth.currentUser == old(auth.currentUser)
      ensures auth.isLoading == old(auth.isLoading)
    {
      showAlert := false;
      auth.ClearError();
    }

    /** With sound errors, an enabled button means both fields pass their checks. */
    lemma EnabledButtonMeansAcceptableInput()
      requires ErrorsSound() && !IsButtonDisabled()
      ensures IsValidEmail(email) && IsValidPassword(password)
    {
    }
  }
}
