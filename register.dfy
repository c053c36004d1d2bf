/**
 * The registration page (src/pages/Register.tsx): the password-confirmation check,
 * the call to `register`, and the `isSubmitting` and `success` flags.
 */
module RegisterPage {
  import opened Wrappers
  import opened Auth

  /** The toast the page raises after a submission. */
  datatype RegisterToast =
    | PasswordsDontMatch
    | RegistrationSuccessful
    | RegistrationFailed(message: string)

  class RegisterForm {
    const auth: AuthProvider
    var name: string
    var email: string
    var password: string
    var confirmPassword: string
    var isSubmitting: bool
    var success: bool

    constructor (auth: AuthProvider)
      ensures this.auth == auth
      ensures name == "" && email == "" && password == "" && confirmPassword == ""
      ensures !isSubmitting && !success
    {
      this.auth := auth;
      name, email, password, confirmPassword := "", "", "", "";
      isSubmitting, success := false, false;
    }

    /** The four inputs as the visitor types them. */
    method Fill(name: string, email: string, password: string, confirmPassword: string)
      modifies this`name, this`email, this`password, this`confirmPassword
      ensures this.name == name && this.email == email
      ensures this.password == password && this.confirmPassword == confirmPassword
    {
      this.name, this.email, this.password, this.confirmPassword := name, email, password, confirmPassword;
    }

    /** The effect that sends a signed-in visitor home. */
    method AuthRedirect() returns (target: Option<string>)
      ensures target.Some? <==> auth.IsAuthenticated()
      ensures target.Some? ==> target.value == "/"
    {
      target := if auth.IsAuthenticated() then Some("/") else None;
    }

    /** `handleSubmit`: on a password mismatch only the toast appears and `register` is
        not called; otherwise `register(name, email, password)` runs between setting and
        clearing `isSubmitting`, and `success` is set when it resolves. */
    method HandleSubmit(newId: string, writeFails: bool) returns (toast: RegisterToast)
      modifies this`isSubmitting, this`success, auth
      ensures name == old(name) && email == old(email)
      ensures password == old(password) && confirmPassword == old(confirmPassword)
      ensures password != confirmPassword ==>
        && toast == PasswordsDontMatch
        && isSubmitting == old(isSubmitting) && success == old(success)
        && auth.user == old(auth.user) && auth.storage == old(auth.storage)
        && auth.isLoading == old(auth.isLoading)
      ensures password == confirmPassword ==>
        && auth.user == Some(User(newId, name, email, UserRole))
        && !auth.isLoading && !isSubmitting
        && auth.storage == (if writeFails then old(auth.storage)
                            else old(auth.storage)[StorageKey := User(newId, name, email, UserRole)])
        && (writeFails ==> toast == RegistrationFailed(AuthErrorMessage(StorageWriteFailed)) && success == old(success))
        && (!writeFails ==> toast == RegistrationSuccessful && success && auth.Synced())
    {
      if password != confirmPassword {
        return PasswordsDontMatch;
      }
      isSubmitting := true;
      var settled := auth.Register(name, email, password, newId, writeFails);
      if settled.Resolved? {
        success := true;
        toast := RegistrationSuccessful;
      } else {
        toast := RegistrationFailed(AuthErrorMessage(settled.error));
      }
      isSubmitting := false;
    }
  }
}
