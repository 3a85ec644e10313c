/**
 * The rules the two sign-in forms share (src/components/LoginModal.jsx and
 * src/pages/LoginPage.jsx, which carry the same `validateForm` and the same
 * payloads): the password checks, and the user data handed to `login` and
 * `register`. `Date.now()` is the parameter `now`.
 */
module AuthForm {
  import opened Wrappers
  import opened Text
  import AuthContext

  const PasswordsDoNotMatch := "Passwords do not match"
  const PasswordTooShort := "Password must be at least 6 characters"
  const MinPasswordLength := 6

  const Registered := "Registration successful! Please login with your credentials."
  const LoggedIn := "Login successful! Welcome back!"

  /**
   * `validateForm`: the password error it sets, or `None` when it returns true. In register
   * mode a mismatch with the confirmation is reported first; then a password that is too short.
   */
  function Validate(isRegister: bool, password: string, confirmPassword: string): (r: Option<string>)
    ensures r.None? <==> (!isRegister || password == confirmPassword) && |password| >= MinPasswordLength
    ensures isRegister && password != confirmPassword ==> r == Some(PasswordsDoNotMatch)
    ensures (!isRegister || password == confirmPassword) && |password| < MinPasswordLength ==>
      r == Some(PasswordTooShort)
  {
    if isRegister && password != confirmPassword then Some(PasswordsDoNotMatch)
    else if |password| < MinPasswordLength then Some(PasswordTooShort)
    else None
  }

  /** A short mismatched password in register mode is reported as a mismatch, not as too short. */
  lemma MismatchTakesPrecedence(password: string, confirmPassword: string)
    requires password != confirmPassword && |password| < MinPasswordLength
    ensures Validate(true, password, confirmPassword) == Some(PasswordsDoNotMatch)
    ensures Validate(false, password, confirmPassword) == Some(PasswordTooShort)
  {
  }

  /** The login form ignores the confirmation field. */
  lemma LoginIgnoresConfirmation(password: string, c1: string, c2: string)
    ensures Validate(false, password, c1) == Validate(false, password, c2)
  {
  }

  /** The user data `register` receives: the name and e-mail as entered, the timestamp as id. */
  function RegisterPayload(name: string, email: string, now: nat): (d: AuthContext.UserData)
    ensures d.name == name && d.email == email && d.id == NatToString(now)
  {
    AuthContext.UserData(name, email, NatToString(now))
  }

  /**
   * The user data `login` receives: `email.split('@')[0]` as the name, the e-mail as entered,
   * the timestamp as id.
   */
  function LoginPayload(email: string, now: nat): (d: AuthContext.UserData)
    ensures d.email == email && d.id == NatToString(now)
    ensures d.name <= email && '@' !in d.name
    ensures '@' in email ==> |d.name| == IndexOf(email, '@')
    ensures '@' !in email ==> d.name == email
  {
    BeforeFirstSpec(email, '@');
    AuthContext.UserData(BeforeFirst(email, '@'), email, NatToString(now))
  }

  /** The id of either payload reads back as the timestamp. */
  lemma PayloadIdIsTimestamp(name: string, email: string, now: nat)
    ensures DigitsValue(RegisterPayload(name, email, now).id) == now
    ensures DigitsValue(LoginPayload(email, now).id) == now
  {
    NatToStringRoundTrip(now);
  }
}
