/**
 * The forgot-password sheet's form state: one e-mail field with its error,
 * the `hasAttemptedSubmit` flag, the alert and the `isPresented` binding.
 */
module ForgotPassword {
  import opened Wrappers
  import opened Credentials
  import opened FormValidation
  import opened Auth

  const ErrorTitle: string := "錯誤"
  const SuccessTitle: string := "成功"

  class ForgotPasswordForm {
    const auth: AuthViewModel
    var email: string
    var isPresented: bool   // the binding that shows this sheet
    var emailError: Option<string>
    var hasAttemptedSubmit: bool
    var showAlert: bool
    var alertMessage: string
    var alertTitle: string

    /** The field without an error is empty or acceptable. */
    ghost predicate ErrorsSound()
      reads this
    {
      emailError.None? ==> email == "" || IsValidEmail(email)
    }

    constructor (auth: AuthViewModel)
      ensures this.auth == auth && isPresented
      ensures email == "" && emailError == None && !hasAttemptedSubmit
      ensures !showAlert && alertMessage == "" && alertTitle == ErrorTitle
      ensures ErrorsSound()
    {
      this.auth := auth;
      isPresented := true;
      email, emailError, hasAttemptedSubmit := "", None, false;
      showAlert, alertMessage, alertTitle := false, "", ErrorTitle;
    }

    /** `isButtonDisabled` */
    predicate IsButtonDisabled()
      reads this, auth
    {
      email == "" || emailError.Some? || auth.isLoading
    }

    /** `validateEmail()` */
    method ValidateEmail()
      modifies this`emailError
      ensures emailError == SubmitTimeError(email, hasAttemptedSubmit, IsValidEmail(email),
                                            EmptyEmailMessage, BadEmailMessage)
    {
      if email == "" {
        emailError := if hasAttemptedSubmit then Some(EmptyEmailMessage) else None;
      } else if !IsValidEmail(email) {
        emailError := Some(BadEmailMessage);
      } else {
        emailError := None;
      }
    }

    /** `validateEmailRealTime()` */
    method ValidateEmailRealTime()
      modifies this`emailError
      ensures emailError == RealTimeError(email, IsValidEmail(email), BadEmailMessage)
    {
      if email != "" && !IsValidEmail(email) {
        emailError := Some(BadEmailMessage);
      } else if email == "" || IsValidEmail(email) {
        emailError := None;
      }
    }

    /** `clearValidationErrors()` */
    method ClearValidationErrors()
      modifies this`emailError, this`hasAttemptedSubmit
      ensures emailError == None && !hasAttemptedSubmit
    {
      emailError := None;
      hasAttemptedSubmit := false;
    }

    /** `showErrorAlert(_:)` */
    method ShowErrorAlert(message: string)
      modifies this`alertTitle, this`alertMessage, this`showAlert
      ensures alertTitle == ErrorTitle && alertMessage == message && showAlert
    {
      alertTitle := ErrorTitle;
      alertMessage := message;
      showAlert := true;
    }

    /** `showSuccessAlert(_:)` */
    method ShowSuccessAlert(message: string)
      modifies this`alertTitle, this`alertMessage, this`showAlert
      ensures alertTitle == SuccessTitle && alertMessage == message && showAlert
    {
      alertTitle := SuccessTitle;
      alertMessage := message;
      showAlert := true;
    }

    /** Typing in the e-mail field: `onChange(of: email)`. */
    method EditEmail(value: string)
      modifies this`email, this`emailError
      ensures email == value
      ensures emailError.Some? <==> value != "" && !IsValidEmail(value)
      ensures old(ErrorsSound()) ==> ErrorsSound()
    {
      email := value;
      ValidateEmailRealTime();
    }

    /**
     * The send button. `resetRequested` says whether a reset request went out:
     * exactly when the address passes its check.
     */
    method Submit() returns (resetRequested: bool)
      requires auth.Valid()
      modifies this`hasAttemptedSubmit, this`emailError
      modifies this`alertTitle, this`alertMessage, this`showAlert, auth
      ensures auth.Valid() && hasAttemptedSubmit && ErrorsSound()
      ensures resetRequested <==> IsValidEmail(email)
      ensures resetRequested <==> emailError == None
      ensures emailError == SubmitTimeError(email, true, IsValidEmail(email), EmptyEmailMessage, BadEmailMessage)
      ensures resetRequested ==>
                && auth.isLoading && auth.errorMessage == "" && auth.successMessage == ""
                && auth.isAuthenticated == old(auth.isAuthenticated) && auth.currentUser == old(auth.currentUser)
                && showAlert == old(showAlert) && alertTitle == old(alertTitle) && alertMessage == old(alertMessage)
      ensures !resetRequested ==>
                && unchanged(auth)
                && showAlert && alertTitle == ErrorTitle && alertMessage == FixErrorsMessage
      ensures old(ErrorsSound() && !IsButtonDisabled()) ==> resetRequested
    {
      hasAttemptedSubmit := true;
      ValidateEmail();
      SubmitAttemptPasses(email, IsValidEmail(email), EmptyEmailMessage, BadEmailMessage);
      if emailError == None {
        auth.ClearError();
        auth.ResetPassword(email);
        resetRequested := true;
      } else {
        ShowErrorAlert(FixErrorsMessage);
        resetRequested := false;
      }
    }

    /** The "返回登入" button: clear the check and close the sheet. */
    method BackToLogin()
      modifies this`emailError, this`hasAttemptedSubmit, this`isPresented
      ensures emailError == None && !hasAttemptedSubmit && !isPresented
    {
      ClearValidationErrors();
      isPresented := false;
    }

    /** The "取消" toolbar button: the same as going back. */
    method Cancel()
      modifies this`emailError, this`hasAttemptedSubmit, this`isPresented
      ensures emailError == None && !hasAttemptedSubmit && !isPresented
    {
      ClearValidationErrors();
      isPresented := false;
    }

    /** `onChange(of: authViewModel.errorMessage)`: a service error shows once loading is over. */
    method ErrorMessageChanged()
      modifies this`alertTitle, this`alertMessage, this`showAlert
      ensures auth.errorMessage != "" && !auth.isLoading ==>
                showAlert && alertTitle == ErrorTitle && alertMessage == auth.errorMessage
      ensures !(auth.errorMessage != "" && !auth.isLoading) ==>
                showAlert == old(showAlert) && alertTitle == old(alertTitle) && alertMessage == old(alertMessage)
    {
      if auth.errorMessage != "" && !auth.isLoading {
        ShowErrorAlert(auth.errorMessage);
      }
    }

    /** `onChange(of: authViewModel.successMessage)`: the confirmation shows once loading is over. */
    method SuccessMessageChanged()
      modifies this`alertTitle, this`alertMessage, this`showAlert
      ensures auth.successMessage != "" && !auth.isLoading ==>
                showAlert && alertTitle == SuccessTitle && alertMessage == auth.successMessage
      ensures !(auth.successMessage != "" && !auth.isLoading) ==>
                showAlert == old(showAlert) && alertTitle == old(alertTitle) && alertMessage == old(alertMessage)
    {
      if auth.successMessage != "" && !auth.isLoading {
        ShowSuccessAlert(auth.successMessage);
      }
    }

    /** The alert's "確定" button: the alert closes and the service messages are cleared. */
    method AlertDismissed()
      modifies this`showAlert, auth
      ensures !showAlert
      ensures auth.errorMessage == "" && auth.successMessage == ""
      ensures auth.isAuthenticated == old(auth.isAuthenticated) && auth.currentUser == old(auth.currentUser)
      ensures auth.isLoading == old(auth.isLoading)
    {
      showAlert := false;
      auth.ClearError();
    }

    /** With a sound error, an enabled button means the address passes its check. */
    lemma EnabledButtonMeansAcceptableInput()
      requires ErrorsSound() && !IsButtonDisabled()
      ensures IsValidEmail(email)
    {
    }
  }
}
