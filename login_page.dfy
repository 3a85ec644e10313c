/**
 * The stand-alone sign-in page (src/pages/LoginPage.jsx): the same form and
 * submit as the dialog, without the reset on open, and the redirect to the
 * page the visitor came from. `location.state?.from` is the field `from`
 * ("" when absent); a navigation is recorded as the target path in
 * `location` ("" while the page has not navigated).
 */
module LoginPage {
  import opened Wrappers
  import opened Text
  import opened AuthForm
  import AuthContext

  const Home := "/"

  /** `location.state?.from || '/'` */
  function RedirectTarget(from: string): (r: string)
    ensures r != ""
    ensures from != "" ==> r == from
    ensures from == "" ==> r == Home
  {
    OrElse(from, Home)
  }

  class LoginForm {
    const from: string
    var location: string
    var isRegister: bool
    var name: string
    var email: string
    var password: string
    var confirmPassword: string
    var passwordError: string
    var successMessage: string
    var error: string

    constructor (cameFrom: string)
      ensures from == cameFrom && location == "" && !isRegister
      ensures name == "" && email == "" && password == "" && confirmPassword == ""
      ensures passwordError == "" && successMessage == "" && error == ""
    {
      from := cameFrom;
      location := "";
      isRegister := false;
      name, email, password, confirmPassword := "", "", "", "";
      passwordError, successMessage, error := "", "", "";
    }

    /** The effect that sends a visitor who is already signed in back where they came from. */
    method RedirectIfAuthenticated(auth: AuthContext.AuthProvider)
      modifies this
      ensures auth.IsAuthenticated() ==> location == RedirectTarget(from)
      ensures !auth.IsAuthenticated() ==> location == old(location)
      ensures isRegister == old(isRegister) && successMessage == old(successMessage)
      ensures name == old(name) && email == old(email) && password == old(password)
      ensures confirmPassword == old(confirmPassword) && passwordError == old(passwordError) && error == old(error)
    {
      if auth.IsAuthenticated() {
        location := RedirectTarget(from);
      }
    }

    /** The mode links: on this page switching mode keeps what was typed. */
    method SetRegister(b: bool)
      modifies this
      ensures isRegister == b && location == old(location)
      ensures name == old(name) && email == old(email) && password == old(password)
      ensures confirmPassword == old(confirmPassword) && passwordError == old(passwordError)
      ensures successMessage == old(successMessage) && error == old(error)
    {
      isRegister := b;
    }

    /**
     * `handleSubmit`: a form that fails validation shows its password error and calls nobody;
     * otherwise `register` or `login` receives the payload and the success message shows.
     * Returns whether an auth call was made.
     */
    method HandleSubmit(auth: AuthContext.AuthProvider, now: nat) returns (called: bool)
      modifies this, auth
      ensures location == old(location) && isRegister == old(isRegister)
      ensures name == old(name) && email == old(email)
      ensures password == old(password) && confirmPassword == old(confirmPassword)
      ensures auth.loading == old(auth.loading)
      ensures called <==> Validate(isRegister, password, confirmPassword).None?
      ensures !called ==>
        passwordError == Validate(isRegister, password, confirmPassword).value && error == "" &&
        successMessage == old(successMessage) &&
        auth.user == old(auth.user) && auth.storage == old(auth.storage)
      ensures called && isRegister ==>
        auth.user == Some(AuthContext.SessionUser(RegisterPayload(name, email, now), now)) &&
        auth.storage == AuthContext.SignedInStorage(old(auth.storage), auth.user.value) &&
        successMessage == Registered && passwordError == "" && error == ""
      ensures called && !isRegister ==>
        auth.user == Some(AuthContext.SessionUser(LoginPayload(email, now), now)) &&
        auth.storage == AuthContext.SignedInStorage(old(auth.storage), auth.user.value) &&
        successMessage == LoggedIn && passwordError == "" && error == ""
    {
      passwordError := "";
      error := "";
      var problem := Validate(isRegister, password, confirmPassword);
      if problem.Some? {
        passwordError := problem.value;
        return false;
      }
      if isRegister {
        var _ := auth.Register(RegisterPayload(name, email, now), now);
        successMessage := Registered;
      } else {
        var _ := auth.Login(LoginPayload(email, now), now);
        successMessage := LoggedIn;
      }
      called := true;
    }

    /** The timer after a registration: back to login mode, name and confirmation cleared. */
    method RegisterDelayElapsed()
      modifies this
      ensures !isRegister && successMessage == "" && name == "" && confirmPassword == ""
      ensures email == old(email) && password == old(password) && location == old(location)
      ensures passwordError == old(passwordError) && error == old(error)
    {
      isRegister := false;
      successMessage := "";
      name := "";
      confirmPassword := "";
    }

    /** The timer after a login: on to the page the visitor came from, else home. */
    method LoginDelayElapsed()
      modifies this
      ensures location == RedirectTarget(from)
      ensures isRegister == old(isRegister) && successMessage == old(successMessage)
      ensures name == old(name) && email == old(email) && password == old(password)
      ensures confirmPassword == old(confirmPassword) && passwordError == old(passwordError) && error == old(error)
    {
      location := RedirectTarget(from);
    }
  }
}
