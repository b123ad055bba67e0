/**
 * The authentication view model: five published fields and the guarded
 * transitions over them. Each request to the authentication service is split
 * into the call, which updates the fields and says whether a request went
 * out, and a completion event, which receives the service's answer.
 */
module Auth {
  import opened Wrappers
  import opened Credentials

  /** A signed-in user of the authentication service. */
  datatype User = User(uid: string, email: Option<string>)

  /** The answer to a sign-in or sign-up request. */
  datatype AuthResult = SignedIn(user: User) | Rejected(error: AuthError)

  class AuthViewModel {
    var isAuthenticated: bool
    var currentUser: Option<User>
    var errorMessage: string
    var successMessage: string
    var isLoading: bool

    /** Authenticated exactly when a user is held. */
    ghost predicate Valid()
      reads this
    {
      isAuthenticated <==> currentUser.Some?
    }

    /** `init()` with `checkAuthenticationStatus()`: `signedIn` is the service's current user. */
    constructor (signedIn: Option<User>)
      ensures Valid()
      ensures currentUser == signedIn && isAuthenticated == signedIn.Some?
      ensures errorMessage == "" && successMessage == "" && !isLoading
    {
      isAuthenticated := signedIn.Some?;
      currentUser := signedIn;
      errorMessage := "";
      successMessage := "";
      isLoading := false;
    }

    /** `signIn(email:password:)`; `requested` says whether the request was sent. */
    method SignIn(email: string, password: string) returns (requested: bool)
      requires Valid()
      modifies this
      ensures Valid()
      ensures requested <==> IsValidEmail(email) && IsValidPassword(password)
      ensures !IsValidEmail(email) ==> errorMessage == InvalidEmailMessage
      ensures IsValidEmail(email) && !IsValidPassword(password) ==> errorMessage == ShortPasswordMessage
      ensures requested ==> isLoading && errorMessage == ""
      ensures !requested ==> isLoading == old(isLoading)
      ensures isAuthenticated == old(isAuthenticated) && currentUser == old(currentUser)
      ensures successMessage == old(successMessage)
    {
      if !IsValidEmail(email) {
        errorMessage := InvalidEmailMessage;
        return false;
      }
      if !IsValidPassword(password) {
        errorMessage := ShortPasswordMessage;
        return false;
      }
      isLoading := true;
      errorMessage := "";
      requested := true;
    }

    /** `signUp(email:password:confirmPassword:)`; the first failing check alone sets the message. */
    method SignUp(email: string, password: string, confirmPassword: string) returns (requested: bool)
      requires Valid()
      modifies this
      ensures Valid()
      ensures requested <==> IsValidEmail(email) && IsValidPassword(password) && password == confirmPassword
      ensures !IsValidEmail(email) ==> errorMessage == InvalidEmailMessage
      ensures IsValidEmail(email) && !IsValidPassword(password) ==> errorMessage == ShortPasswordMessage
      ensures IsValidEmail(email) && IsValidPassword(password) && password != confirmPassword ==>
                errorMessage == PasswordMismatchMessage
      ensures requested ==> isLoading && errorMessage == ""
      ensures !requested ==> isLoading == old(isLoading)
      ensures isAuthenticated == old(isAuthenticated) && currentUser == old(currentUser)
      ensures successMessage == old(successMessage)
    {
      if !IsValidEmail(email) {
        errorMessage := InvalidEmailMessage;
        return false;
      }
      if !IsValidPassword(password) {
        errorMessage := ShortPasswordMessage;
        return false;
      }
      if password != confirmPassword {
        errorMessage := PasswordMismatchMessage;
        return false;
      }
      isLoading := true;
      errorMessage := "";
      requested := true;
    }

    /** The completion of a sign-in request. */
    method SignInCompleted(result: AuthResult)
      requires Valid()
      modifies this
      ensures Valid()
      ensures !isLoading && successMessage == old(successMessage)
      ensures result.Rejected? ==>
                && errorMessage == TranslateFirebaseError(result.error)
                && isAuthenticated == old(isAuthenticated) && currentUser == old(currentUser)
      ensures result.SignedIn? ==>
                && currentUser == Some(result.user) && isAuthenticated
                && errorMessage == old(errorMessage)
    {
      isLoading := false;
      match result
      case Rejected(error) =>
        errorMessage := TranslateFirebaseError(error);
      case SignedIn(user) =>
        currentUser := Some(user);
        isAuthenticated := true;
    }

    /** The completion of a sign-up request; it does what the sign-in completion does. */
    method SignUpCompleted(result: AuthResult)
      requires Valid()
      modifies this
      ensures Valid()
      ensures !isLoading && successMessage == old(successMessage)
      ensures result.Rejected? ==>
                && errorMessage == TranslateFirebaseError(result.error)
                && isAuthenticated == old(isAuthenticated) && currentUser == old(currentUser)
      ensures result.SignedIn? ==>
                && currentUser == Some(result.user) && isAuthenticated
                && errorMessage == old(errorMessage)
    {
      isLoading := false;
      match result
      case Rejected(error) =>
        errorMessage := TranslateFirebaseError(error);
      case SignedIn(user) =>
        currentUser := Some(user);
        isAuthenticated := true;
    }

    /**
     * `signOut()`; `failure` is the description of the error the service
     * throws, if it throws.
     */
    method SignOut(failure: Option<string>)
      requires Valid()
      modifies this
      ensures Valid()
      ensures failure.None? ==> currentUser == None && !isAuthenticated && errorMessage == ""
      ensures failure.Some? ==>
                && errorMessage == failure.value
                && currentUser == old(currentUser) && isAuthenticated == old(isAuthenticated)
      ensures isLoading == old(isLoading) && successMessage == old(successMessage)
    {
      match failure
      case None =>
        currentUser := None;
        isAuthenticated := false;
        errorMessage := "";
      case Some(description) =>
        errorMessage := description;
    }

    /** `resetPassword(email:)`: no check on the address; the request always goes out. */
    method ResetPassword(email: string)
      requires Valid()
      modifies this
      ensures Valid()
      ensures isLoading && errorMessage == "" && successMessage == ""
      ensures isAuthenticated == old(isAuthenticated) && currentUser == old(currentUser)
    {
      isLoading := true;
      errorMessage := "";
      successMessage := "";
    }

    /** The completion of a password-reset request: exactly one of the two messages is set. */
    method ResetPasswordCompleted(error: Option<AuthError>)
      requires Valid()
      modifies this
      ensures Valid()
      ensures !isLoading
      ensures error.Some? ==>
                errorMessage == TranslateFirebaseError(error.value) && successMessage == old(successMessage)
      ensures error.None? ==>
                successMessage == ResetMailSentMessage && errorMessage == old(errorMessage)
      ensures isAuthenticated == old(isAuthenticated) && currentUser == old(currentUser)
    {
      isLoading := false;
      match error
      case Some(e) =>
        errorMessage := TranslateFirebaseError(e);
      case None =>
        successMessage := ResetMailSentMessage;
    }

    /** `clearError()`: both messages emptied, nothing else touched. */
    method ClearError()
      modifies this
      ensures errorMessage == "" && successMessage == ""
      ensures isAuthenticated == old(isAuthenticated) && currentUser == old(currentUser)
      ensures isLoading == old(isLoading)
    {
      errorMessage := "";
      successMessage := "";
    }
  }
}
