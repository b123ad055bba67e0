/**
 * The register screen's form state: three text fields, one optional error
 * per field, the `hasAttemptedSubmit` flag and the alert, over the shared
 * authentication view model. Each `onChange` handler is an `Edit*` method
 * that stores the new text and runs the handler's real-time checks.
 */
module Register {
  import opened Wrappers
  import opened Credentials
  import opened FormValidation
  import opened Auth

  const RegisterFailedTitle: string := "註冊失敗"

  class RegisterForm {
    const auth: AuthViewModel
    var email: string
    var password: string
    var confirmPassword: string
    var showingLogin: bool   // the binding shared with the authentication screen
    var emailError: Option<string>
    var passwordError: Option<string>
    var confirmPasswordError: Option<string>
    var hasAttemptedSubmit: bool
    var showAlert: bool
    var alertMessage: string
    var alertTitle: string

    /**
     * A field without an error is empty or acceptable. Edits and checks keep
     * this; only `clearValidationErrors` drops it, and that runs when the
     * screen is left or the fields are emptied.
     */
    ghost predicate ErrorsSound()
      reads this
    {
      && (emailError.None? ==> email == "" || IsValidEmail(email))
      && (passwordError.None? ==> password == "" || IsValidPassword(password))
      && (confirmPasswordError.None? ==> confirmPassword == "" || confirmPassword == password)
    }

    constructor (auth: AuthViewModel, showingLogin: bool)
      ensures this.auth == auth && this.showingLogin == showingLogin
      ensures email == "" && password == "" && confirmPassword == ""
      ensures emailError == None && passwordError == None && confirmPasswordError == None
      ensures !hasAttemptedSubmit && !showAlert && alertMessage == "" && alertTitle == RegisterFailedTitle
      ensures ErrorsSound()
    {
      this.auth := auth;
      this.showingLogin := showingLogin;
      email, password, confirmPassword := "", "", "";
      emailError, passwordError, confirmPasswordError := None, None, None;
      hasAttemptedSubmit, showAlert := false, false;
      alertMessage, alertTitle := "", RegisterFailedTitle;
    }

    /** `isButtonDisabled` */
    predicate IsButtonDisabled()
      reads this, auth
    {
      || email == "" || password == "" || confirmPassword == ""
      || emailError.Some? || passwordError.Some? || confirmPasswordError.Some?
      || auth.isLoading
    }

    /** `validateEmail()` */
    method ValidateEmail()
      modifies this`emailError
      ensures emailError == SubmitTimeError(email, hasAttemptedSubmit, IsValidEmail(email),
                                            EmptyEmailMessage, BadEmailMessage)
    {
      if email == "" {
        emailError := if hasAttemptedSubmit then Some(EmptyEmailMessage) else None;
      } else if !IsValidEmail(email) {
        emailError := Some(BadEmailMessage);
      } else {
        emailError := None;
      }
    }

    /** `validatePassword()` */
    method ValidatePassword()
      modifies this`passwordError
      ensures passwordError == SubmitTimeError(password, hasAttemptedSubmit, IsValidPassword(password),
                                               EmptyPasswordMessage, TooShortMessage)
    {
      if password == "" {
        passwordError := if hasAttemptedSubmit then Some(EmptyPasswordMessage) else None;
      } else if !IsValidPassword(password) {
        passwordError := Some(TooShortMessage);
      } else {
        passwordError := None;
      }
    }

    /** `validateConfirmPassword()`: a non-empty confirmation must equal the password. */
    method ValidateConfirmPassword()
      modifies this`confirmPasswordError
      ensures confirmPasswordError == SubmitTimeError(confirmPassword, hasAttemptedSubmit,
                                                      password == confirmPassword,
                                                      EmptyConfirmMessage, MismatchMessage)
    {
      if confirmPassword == "" {
        confirmPasswordError := if hasAttemptedSubmit then Some(EmptyConfirmMessage) else None;
      } else if password != confirmPassword {
        confirmPasswordError := Some(MismatchMessage);
      } else {
        confirmPasswordError := None;
      }
    }

    /** `validateEmailRealTime()` */
    method ValidateEmailRealTime()
      modifies this`emailError
      ensures emailError == RealTimeError(email, IsValidEmail(email), BadEmailMessage)
    {
      if email != "" && !IsValidEmail(email) {
        emailError := Some(BadEmailMessage);
      } else if email == "" || IsValidEmail(email) {
        emailError := None;
      }
    }

    /** `validatePasswordRealTime()` */
    method ValidatePasswordRealTime()
      modifies this`passwordError
      ensures passwordError == RealTimeError(password, IsValidPassword(password), TooShortMessage)
    {
      if password != "" && !IsValidPassword(password) {
        passwordError := Some(TooShortMessage);
      } else if password == "" || IsValidPassword(password) {
        passwordError := None;
      }
    }

    /** `validateConfirmPasswordRealTime()` */
    method ValidateConfirmPasswordRealTime()
      modifies this`confirmPasswordError
      ensures confirmPasswordError == RealTimeError(confirmPassword, password == confirmPassword, MismatchMessage)
    {
      if confirmPassword != "" && password != confirmPassword {
        confirmPasswordError := Some(MismatchMessage);
      } else if confirmPassword == "" || password == confirmPassword {
        confirmPasswordError := None;
      }
    }

    /** `validateAll()` */
    method ValidateAll()
      modifies this`emailError, this`passwordError, this`confirmPasswordError
      ensures emailError == SubmitTimeError(email, hasAttemptedSubmit, IsValidEmail(email),
                                            EmptyEmailMessage, BadEmailMessage)
      ensures passwordError == SubmitTimeError(password, hasAttemptedSubmit, IsValidPassword(password),
                                               EmptyPasswordMessage, TooShortMessage)
      ensures confirmPasswordError == SubmitTimeError(confirmPassword, hasAttemptedSubmit,
                                                      password == confirmPassword,
                                                      EmptyConfirmMessage, MismatchMessage)
    {
      ValidateEmail();
      ValidatePassword();
      ValidateConfirmPassword();
    }

    /** `clearValidationErrors()` */
    method ClearValidationErrors()
      modifies this`emailError, this`passwordError, this`confirmPasswordError, this`hasAttemptedSubmit
      ensures emailError == None && passwordError == None && confirmPasswordError == None
      ensures !hasAttemptedSubmit
    {
      emailError, passwordError, confirmPasswordError := None, None, None;
      hasAttemptedSubmit := false;
    }

    /** `showErrorAlert(_:)` */
    method ShowErrorAlert(message: string)
      modifies this`alertTitle, this`alertMessage, this`showAlert
      ensures alertTitle == RegisterFailedTitle && alertMessage == message && showAlert
    {
      alertTitle := RegisterFailedTitle;
      alertMessage := message;
      showAlert := true;
    }

    /** Typing in the e-mail field: `onChange(of: email)`. */
    method EditEmail(value: string)
      modifies this`email, this`emailError
      ensures email == value
      ensures emailError.Some? <==> value != "" && !IsValidEmail(value)
      ensures old(ErrorsSound()) ==> ErrorsSound()
    {
      email := value;
      ValidateEmailRealTime();
    }

    /**
     * Typing in the password field: `onChange(of: password)` re-checks the
     * confirmation only when it is non-empty.
     */
    method EditPassword(value: string)
      modifies this`password, this`passwordError, this`confirmPasswordError
      ensures password == value
      ensures passwordError.Some? <==> value != "" && !IsValidPassword(value)
      ensures confirmPassword != "" ==> (confirmPasswordError.Some? <==> confirmPassword != value)
      ensures confirmPassword == "" ==> confirmPasswordError == old(confirmPasswordError)
      ensures old(ErrorsSound()) ==> ErrorsSound()
    {
      password := value;
      ValidatePasswordRealTime();
      if confirmPassword != "" {
        ValidateConfirmPasswordRealTime();
      }
    }

    /** Typing in the confirmation field: `onChange(of: confirmPassword)`. */
    method EditConfirmPassword(value: string)
      modifies this`confirmPassword, this`confirmPasswordError
      ensures confirmPassword == value
      ensures confirmPasswordError.Some? <==> value != "" && value != password
      ensures old(ErrorsSound()) ==> ErrorsSound()
    {
      confirmPassword := value;
      ValidateConfirmPasswordRealTime();
    }

    /**
     * The first half of the register button: mark the attempt and run every
     * check. The fields pass exactly when the input is acceptable, and they
     * always pass when the button was enabled.
     */
    method CheckForSubmit()
      modifies this`hasAttemptedSubmit, this`emailError, this`passwordError, this`confirmPasswordError
      ensures hasAttemptedSubmit && ErrorsSound()
      ensures emailError == SubmitTimeError(email, true, IsValidEmail(email), EmptyEmailMessage, BadEmailMessage)
      ensures passwordError == SubmitTimeError(password, true, IsValidPassword(password),
                                               EmptyPasswordMessage, TooShortMessage)
      ensures confirmPasswordError == SubmitTimeError(confirmPassword, true, password == confirmPassword,
                                                      EmptyConfirmMessage, MismatchMessage)
      ensures emailError == None && passwordError == None && confirmPasswordError == None
          <==> IsValidEmail(email) && IsValidPassword(password) && password == confirmPassword
      ensures old(ErrorsSound() && !IsButtonDisabled()) ==>
                emailError == None && passwordError == None && confirmPasswordError == None
    {
      ghost var wasEnabled := ErrorsSound() && !IsButtonDisabled();
      ghost var acceptable := IsValidEmail(email) && IsValidPassword(password) && password == confirmPassword;
      assert wasEnabled ==> acceptable;
      hasAttemptedSubmit := true;
      ValidateAll();
      SubmitAttemptPasses(email, IsValidEmail(email), EmptyEmailMessage, BadEmailMessage);
      SubmitAttemptPasses(password, IsValidPassword(password), EmptyPasswordMessage, TooShortMessage);
      SubmitAttemptPasses(confirmPassword, password == confirmPassword, EmptyConfirmMessage, MismatchMessage);
    }

    /**
     * The register button. `signUpRequested` says whether a sign-up request
     * went out: exactly when all three fields pass, and then the view model's
     * own checks pass too.
     */
    method Submit() returns (signUpRequested: bool)
      requires auth.Valid()
      modifies this`hasAttemptedSubmit, this`emailError, this`passwordError, this`confirmPasswordError
      modifies this`alertTitle, this`alertMessage, this`showAlert, auth
      ensures auth.Valid() && hasAttemptedSubmit && ErrorsSound()
      ensures signUpRequested <==> IsValidEmail(email) && IsValidPassword(password) && password == confirmPassword
      ensures signUpRequested <==> emailError == None && passwordError == None && confirmPasswordError == None
      ensures emailError == SubmitTimeError(email, true, IsValidEmail(email), EmptyEmailMessage, BadEmailMessage)
      ensures passwordError == SubmitTimeError(password, true, IsValidPassword(password),
                                               EmptyPasswordMessage, TooShortMessage)
      ensures confirmPasswordError == SubmitTimeError(confirmPassword, true, password == confirmPassword,
                                                      EmptyConfirmMessage, MismatchMessage)
      ensures signUpRequested ==>
                && auth.isLoading && auth.errorMessage == "" && auth.successMessage == ""
                && auth.isAuthenticated == old(auth.isAuthenticated) && auth.currentUser == old(auth.currentUser)
                && showAlert == old(showAlert) && alertTitle == old(alertTitle) && alertMessage == old(alertMessage)
      ensures !signUpRequested ==>
                && unchanged(auth)
                && showAlert && alertTitle == RegisterFailedTitle && alertMessage == FixErrorsMessage
      ensures old(ErrorsSound() && !IsButtonDisabled()) ==> signUpRequested
    {
      CheckForSubmit();
      if emailError == None && passwordError == None && confirmPasswordError == None {
        auth.ClearError();
        signUpRequested := auth.SignUp(email, password, confirmPassword);
      } else {
        ShowErrorAlert(FixErrorsMessage);
        signUpRequested := false;
      }
    }

    /** The "立即登入" link: clear the checks and show the login screen. */
    method GoToLogin()
      modifies this`emailError, this`passwordError, this`confirmPasswordError, this`hasAttemptedSubmit
      modifies this`showingLogin
      ensures emailError == None && passwordError == None && confirmPasswordError == None
      ensures !hasAttemptedSubmit && showingLogin
    {
      ClearValidationErrors();
      showingLogin := true;
    }

    /** `onChange(of: authViewModel.isAuthenticated)`: a successful sign-up empties the form. */
    method AuthenticationChanged()
      modifies this`email, this`password, this`confirmPassword
      modifies this`emailError, this`passwordError, this`confirmPasswordError, this`hasAttemptedSubmit
      ensures auth.isAuthenticated ==>
                && email == "" && password == "" && confirmPassword == ""
                && emailError == None && passwordError == None && confirmPasswordError == None
                && !hasAttemptedSubmit
      ensures !auth.isAuthenticated ==>
                && email == old(email) && password == old(password) && confirmPassword == old(confirmPassword)
                && emailError == old(emailError) && passwordError == old(passwordError)
                && confirmPasswordError == old(confirmPasswordError) && hasAttemptedSubmit == old(hasAttemptedSubmit)
      ensures old(ErrorsSound()) ==> ErrorsSound()
    {
      if auth.isAuthenticated {
        email, password, confirmPassword := "", "", "";
        ClearValidationErrors();
      }
    }

    /** `onChange(of: authViewModel.errorMessage)`: a service error shows once loading is over. */
    method ErrorMessageChanged()
      modifies this`alertTitle, this`alertMessage, this`showAlert
      ensures auth.errorMessage != "" && !auth.isLoading ==>
                showAlert && alertTitle == RegisterFailedTitle && alertMessage == auth.errorMessage
      ensures !(auth.errorMessage != "" && !auth.isLoading) ==>
                showAlert == old(showAlert) && alertTitle == old(alertTitle) && alertMessage == old(alertMessage)
    {
      if auth.errorMessage != "" && !auth.isLoading {
        ShowErrorAlert(auth.errorMessage);
      }
    }

    /** The alert's "確定" button: the alert closes and the service messages are cleared. */
    method AlertDismissed()
      modifies this`showAlert, auth
      ensures !showAlert
      ensures auth.errorMessage == "" && auth.successMessage == ""
      ensures auth.isAuthenticated == old(auth.isAuthenticated) && auth.currentUser == old(auth.currentUser)
      ensures auth.isLoading == old(auth.isLoading)
    {
      showAlert := false;
      auth.ClearError();
    }

    /** With sound errors, an enabled button means every field passes its check. */
    lemma EnabledButtonMeansAcceptableInput()
      requires ErrorsSound() && !IsButtonDisabled()
      ensures IsValidEmail(email) && IsValidPassword(password) && password == confirmPassword
    {
    }
  }
}
