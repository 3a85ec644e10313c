/**
 * The sign-in / register dialog (src/components/LoginModal.jsx): its form
 * fields and messages, the reset whenever it opens or switches mode while
 * open, and the submit that validates and then calls `login` or `register`.
 * `isOpen` is the parent's prop, held here as a field; the two 1.5-second
 * timers are the methods `RegisterDelayElapsed` and `LoginDelayElapsed`,
 * run by whoever drives the clock.
 */
module LoginModal {
  import opened Wrappers
  import opened AuthForm
  import AuthContext

  class LoginDialog {
    var isOpen: bool
    var isRegister: bool
    var name: string
    var email: string
    var password: string
    var confirmPassword: string
    var passwordError: string
    var successMessage: string
    var error: string

    /** Every field and every message is empty. */
    ghost predicate Cleared()
      reads this
    {
      name == "" && email == "" && password == "" && confirmPassword == "" &&
      passwordError == "" && successMessage == "" && error == ""
    }

    constructor (initialMode: string, open: bool)
      ensures isOpen == open && isRegister == (initialMode == "register") && Cleared()
    {
      isOpen := open;
      isRegister := initialMode == "register";
      name, email, password, confirmPassword := "", "", "", "";
      passwordError, successMessage, error := "", "", "";
    }

    /** The reset effect's body. */
    method Reset()
      modifies this
      ensures Cleared() && isOpen == old(isOpen) && isRegister == old(isRegister)
    {
      name, email, password, confirmPassword := "", "", "", "";
      passwordError, successMessage, error := "", "", "";
    }

    /** The parent opens the dialog: an opening clears the form. */
    method Open()
      modifies this
      ensures isOpen && isRegister == old(isRegister)
      ensures !old(isOpen) ==> Cleared()
      ensures old(isOpen) ==>
        name == old(name) && email == old(email) && password == old(password) &&
        confirmPassword == old(confirmPassword) && passwordError == old(passwordError) &&
        successMessage == old(successMessage) && error == old(error)
    {
      if !isOpen {
        isOpen := true;
        Reset();
      }
    }

    /** The parent's `onClose`. */
    method Close()
      modifies this
      ensures !isOpen && isRegister == old(isRegister)
      ensures name == old(name) && email == old(email) && password == old(password) &&
        confirmPassword == old(confirmPassword) && passwordError == old(passwordError) &&
        successMessage == old(successMessage) && error == old(error)
    {
      isOpen := false;
    }

    /**
     * `setIsRegister(b)` from the mode links or the `initialMode` effect: a change of mode
     * while the dialog is open also clears the form.
     */
    method SetRegister(b: bool)
      modifies this
      ensures isRegister == b && isOpen == old(isOpen)
      ensures old(isOpen) && b != old(isRegister) ==> Cleared()
      ensures !(old(isOpen) && b != old(isRegister)) ==>
        name == old(name) && email == old(email) && password == old(password) &&
        confirmPassword == old(confirmPassword) && passwordError == old(passwordError) &&
        successMessage == old(successMessage) && error == old(error)
    {
      var changed := b != isRegister;
      isRegister := b;
      if isOpen && changed {
        Reset();
      }
    }

    /**
     * `handleSubmit`: a form that fails validation shows its password error and calls nobody;
     * otherwise `register` or `login` receives the payload and the success message shows.
     * Returns whether an auth call was made.
     */
    method HandleSubmit(auth: AuthContext.AuthProvider, now: nat) returns (called: bool)
      modifies this, auth
      ensures isOpen == old(isOpen) && isRegister == old(isRegister)
      ensures name == old(name) && email == old(email)
      ensures password == old(password) && confirmPassword == old(confirmPassword)
      ensures auth.loading == old(auth.loading)
      ensures called <==> Validate(isRegister, password, confirmPassword).None?
      ensures !called ==>
        passwordError == Validate(isRegister, password, confirmPassword).value && error == "" &&
        successMessage == old(successMessage) &&
        auth.user == old(auth.user) && auth.storage == old(auth.storage)
      ensures called && isRegister ==>
        auth.user == Some(AuthContext.SessionUser(RegisterPayload(name, email, now), now)) &&
        auth.storage == AuthContext.SignedInStorage(old(auth.storage), auth.user.value) &&
        successMessage == Registered && passwordError == "" && error == ""
      ensures called && !isRegister ==>
        auth.user == Some(AuthContext.SessionUser(LoginPayload(email, now), now)) &&
        auth.storage == AuthContext.SignedInStorage(old(auth.storage), auth.user.value) &&
        successMessage == LoggedIn && passwordError == "" && error == ""
    {
      passwordError := "";
      error := "";
      var problem := Validate(isRegister, password, confirmPassword);
      if problem.Some? {
        passwordError := problem.value;
        return false;
      }
      if isRegister {
        var _ := auth.Register(RegisterPayload(name, email, now), now);
        successMessage := Registered;
      } else {
        var _ := auth.Login(LoginPayload(email, now), now);
        successMessage := LoggedIn;
      }
      called := true;
    }

    /**
     * The timer after a registration: back to login mode with the success message, the name
     * and the confirmation cleared; the mode change then clears the whole form if still open.
     */
    method RegisterDelayElapsed()
      modifies this
      ensures !isRegister && isOpen == old(isOpen)
      ensures successMessage == "" && name == "" && confirmPassword == ""
      ensures isOpen && old(isRegister) ==> Cleared()
      ensures !(isOpen && old(isRegister)) ==>
        email == old(email) && password == old(password) &&
        passwordError == old(passwordError) && error == old(error)
    {
      var wasRegister := isRegister;
      isRegister := false;
      successMessage := "";
      name := "";
      confirmPassword := "";
      if isOpen && wasRegister {
        Reset();
      }
    }

    /** The timer after a login closes the dialog. */
    method LoginDelayElapsed()
      modifies this
      ensures !isOpen && isRegister == old(isRegister)
      ensures name == old(name) && email == old(email) && password == old(password)
      ensures confirmPassword == old(confirmPassword) && passwordError == old(passwordError)
      ensures successMessage == old(successMessage) && error == old(error)
    {
      Close();
    }
  }
}
