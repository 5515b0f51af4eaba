/**
 * The login form (app/LoginScreen.js): two text fields, a Login button that
 * validates them and a Create Account button that does not.
 */
module LoginScreen {
  import opened JsString
  import opened Props

  /** The component's local state. */
  datatype LoginForm = LoginForm(username: string, password: string)

  /** Both fields start empty. */
  const InitialForm := LoginForm("", "")

  const LoginFailed := ShowAlert("Login Failed", "Please enter both username and password")

  /**
   * handleLogin: calls onLogin exactly when both fields hold a non-white-space
   * character; otherwise raises the 'Login Failed' alert and calls nothing.
   * It returns no new form, so the fields are left as the user typed them.
   */
  function HandleLogin(form: LoginForm): (effects: seq<Effect>)
    ensures Invocations(effects, OnLogin) == 1 <==> HasVisibleChar(form.username) && HasVisibleChar(form.password)
    ensures Invocations(effects, OnLogin) == 0 <==> !HasVisibleChar(form.username) || !HasVisibleChar(form.password)
    ensures Invocations(effects, OnLogin) == 0 ==> effects == [LoginFailed]
    ensures Invocations(effects, OnLogin) == 1 ==> effects == [Invoke(OnLogin)]
    ensures Invocations(effects, OnCreateAccount) == 0
  {
    if Trim(form.username) != "" && Trim(form.password) != "" then [Invoke(OnLogin)] else [LoginFailed]
  }

  /** The Create Account button: onCreateAccount once, whatever the fields hold, and no alert. */
  function CreateAccountPressed(form: LoginForm): (effects: seq<Effect>)
    ensures Invocations(effects, OnCreateAccount) == 1 && Invocations(effects, OnLogin) == 0
    ensures NoAlert(effects)
  {
    [Invoke(OnCreateAccount)]
  }

  /** A login with the fields untouched fails. */
  lemma UntouchedLoginFails()
    ensures HandleLogin(InitialForm) == [LoginFailed]
  {
    assert !HasVisibleChar(InitialForm.username);
  }

  /** A field holding only white space counts as empty, whatever the other field holds. */
  lemma BlankFieldFails(form: LoginForm)
    requires !HasVisibleChar(form.username) || !HasVisibleChar(form.password)
    ensures HandleLogin(form) == [LoginFailed]
  {
  }
}
