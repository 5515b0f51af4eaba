/**
 * The root component (app/index.js): two booleans decide which of the three
 * screens is mounted, and the four callbacks it hands to those screens are
 * the only way the booleans change.
 */
module Index {
  import opened Props
  import JsString
  import LoginScreen
  import CreateAccountScreen

  datatype Screen = ShowLogin | ShowCreateAccount | ShowHome

  datatype NavState = NavState(loggedIn: bool, creatingAccount: bool)

  /** Both flags start false. */
  const Initial := NavState(false, false)

  /** The render rule: Home if logged in, else Create Account if asked for, else Login. */
  function Rendered(s: NavState): (screen: Screen)
    ensures screen == ShowHome <==> s.loggedIn
    ensures screen == ShowCreateAccount <==> !s.loggedIn && s.creatingAccount
    ensures screen == ShowLogin <==> !s.loggedIn && !s.creatingAccount
  {
    if s.loggedIn then ShowHome else if s.creatingAccount then ShowCreateAccount else ShowLogin
  }

  /** The screen each callback is passed to as a prop. */
  function Owner(cb: Callback): (screen: Screen)
    ensures screen == ShowHome <==> cb == OnLogout
    ensures screen == ShowCreateAccount <==> cb == OnBack
    ensures screen == ShowLogin <==> cb == OnLogin || cb == OnCreateAccount
  {
    match cb
    case OnLogin => ShowLogin
    case OnCreateAccount => ShowLogin
    case OnBack => ShowCreateAccount
    case OnLogout => ShowHome
  }

  /** Only the mounted screen holds a callback, so only it can call one. */
  predicate Enabled(s: NavState, cb: Callback) {
    Owner(cb) == Rendered(s)
  }

  /** The effect of each callback: one flag set, the other left alone. */
  function Apply(s: NavState, cb: Callback): (t: NavState)
    ensures cb == OnLogin || cb == OnLogout ==>
              t.creatingAccount == s.creatingAccount && t.loggedIn == (cb == OnLogin)
    ensures cb == OnCreateAccount || cb == OnBack ==>
              t.loggedIn == s.loggedIn && t.creatingAccount == (cb == OnCreateAccount)
  {
    match cb
    case OnLogin => s.(loggedIn := true)
    case OnLogout => s.(loggedIn := false)
    case OnCreateAccount => s.(creatingAccount := true)
    case OnBack => s.(creatingAccount := false)
  }

  /** The combination the render rule never needs to break a tie on. */
  predicate Consistent(s: NavState) {
    !(s.loggedIn && s.creatingAccount)
  }

  /** A run of callbacks each called by the screen mounted at that moment. */
  predicate IsTrace(s: NavState, cbs: seq<Callback>)
    decreases |cbs|
  {
    cbs == [] || (Enabled(s, cbs[0]) && IsTrace(Apply(s, cbs[0]), cbs[1..]))
  }

  function Run(s: NavState, cbs: seq<Callback>): NavState
    decreases |cbs|
  {
    if cbs == [] then s else Run(Apply(s, cbs[0]), cbs[1..])
  }

  /** A callback from the mounted screen yields a consistent state, whatever state it starts from. */
  lemma StepKeepsConsistent(s: NavState, cb: Callback)
    requires Enabled(s, cb)
    ensures Consistent(Apply(s, cb))
  {
  }

  /** Without the mounting rule, onLogin from the Create Account screen would reach the forbidden state. */
  lemma EnabledIsNeeded()
    ensures Consistent(NavState(false, true)) && !Enabled(NavState(false, true), OnLogin)
    ensures !Consistent(Apply(NavState(false, true), OnLogin))
  {
  }

  /** Any run of callbacks from mounted screens keeps the state consistent. */
  lemma {:induction false} TraceKeepsConsistent(s: NavState, cbs: seq<Callback>)
    requires Consistent(s) && IsTrace(s, cbs)
    ensures Consistent(Run(s, cbs))
    decreases |cbs|
  {
    if cbs != [] {
      StepKeepsConsistent(s, cbs[0]);
      TraceKeepsConsistent(Apply(s, cbs[0]), cbs[1..]);
    }
  }

  /** From the initial state, logged in and creating an account never hold together. */
  lemma NeverLoggedInWhileCreating(cbs: seq<Callback>)
    requires IsTrace(Initial, cbs)
    ensures !(Run(Initial, cbs).loggedIn && Run(Initial, cbs).creatingAccount)
  {
    TraceKeepsConsistent(Initial, cbs);
  }

  /** Conversely, each of the three consistent states is reached by some run. */
  lemma EveryConsistentStateReachable(s: NavState)
    requires Consistent(s)
    ensures exists cbs :: IsTrace(Initial, cbs) && Run(Initial, cbs) == s
  {
    var cbs := if s.loggedIn then [OnLogin] else if s.creatingAccount then [OnCreateAccount] else [];
    if cbs != [] {
      assert cbs[1..] == [];
      assert Run(Initial, cbs) == Apply(Initial, cbs[0]);
    }
    assert IsTrace(Initial, cbs) && Run(Initial, cbs) == s;
  }

  /** The callbacks a handler's effects call, applied in order; alerts change nothing here. */
  function Dispatch(s: NavState, effects: seq<Effect>): (t: NavState)
    ensures (forall i :: 0 <= i < |effects| ==> effects[i].ShowAlert?) ==> t == s
    ensures |effects| == 1 && effects[0].Invoke? ==> t == Apply(s, effects[0].callback)
    decreases |effects|
  {
    if effects == [] then s
    else Dispatch(if effects[0].Invoke? then Apply(s, effects[0].callback) else s, effects[1..])
  }

  /** Effects run in the order the handler produced them: the first part's callbacks, then the second's. */
  lemma {:induction false} DispatchInOrder(s: NavState, first: seq<Effect>, second: seq<Effect>)
    ensures Dispatch(s, first + second) == Dispatch(Dispatch(s, first), second)
    decreases |first|
  {
    if first == [] {
      assert first + second == second;
    } else {
      assert (first + second)[1..] == first[1..] + second;
      DispatchInOrder(if first[0].Invoke? then Apply(s, first[0].callback) else s, first[1..], second);
    }
  }

  /** Pressing Login on the login screen leads to Home exactly when the form is filled in. */
  lemma LoginReachesHome(s: NavState, form: LoginScreen.LoginForm)
    requires Rendered(s) == ShowLogin
    ensures Rendered(Dispatch(s, LoginScreen.HandleLogin(form))) == ShowHome <==>
            LoginScreen.HandleLogin(form) == [Invoke(OnLogin)]
    ensures Rendered(Dispatch(s, LoginScreen.HandleLogin(form))) != ShowHome ==>
            Dispatch(s, LoginScreen.HandleLogin(form)) == s
  {
  }

  /** A successful account creation returns to the login screen; a rejected one stays put. */
  lemma CreateReturnsToLogin(s: NavState, form: CreateAccountScreen.AccountForm)
    requires Rendered(s) == ShowCreateAccount
    ensures CreateAccountScreen.Complete(form) ==>
            Rendered(Dispatch(s, CreateAccountScreen.HandleCreate(form))) == ShowLogin
    ensures !CreateAccountScreen.Complete(form) ==>
            Dispatch(s, CreateAccountScreen.HandleCreate(form)) == s
  {
    var effects := CreateAccountScreen.HandleCreate(form);
    if CreateAccountScreen.Complete(form) {
      assert Dispatch(s, effects) == Dispatch(s, effects[1..]);
    }
  }

  /** A login with both fields filled in, from the initial state, mounts Home. */
  lemma FilledLoginOpensHome(form: LoginScreen.LoginForm)
    requires JsString.HasVisibleChar(form.username) && JsString.HasVisibleChar(form.password)
    ensures Dispatch(Initial, LoginScreen.HandleLogin(form)) == NavState(true, false)
  {
    var effects := LoginScreen.HandleLogin(form);
    assert effects == [Invoke(OnLogin)];
    assert Dispatch(Initial, effects) == Dispatch(Apply(Initial, OnLogin), []);
  }

  /** A login with an empty password, from the initial state, changes nothing. */
  lemma EmptyPasswordKeepsLogin(form: LoginScreen.LoginForm)
    requires form.password == ""
    ensures Dispatch(Initial, LoginScreen.HandleLogin(form)) == Initial
  {
    var effects := LoginScreen.HandleLogin(form);
    assert effects == [LoginScreen.LoginFailed];
    assert Dispatch(Initial, effects) == Dispatch(Initial, []);
  }

  /** The two login attempts with "alice": an empty password keeps the login screen, "pw" opens Home. */
  lemma AliceScenario()
    ensures Dispatch(Initial, LoginScreen.HandleLogin(LoginScreen.LoginForm("alice", ""))) == Initial
    ensures Rendered(Dispatch(Initial, LoginScreen.HandleLogin(LoginScreen.LoginForm("alice", "pw")))) == ShowHome
  {
    EmptyPasswordKeepsLogin(LoginScreen.LoginForm("alice", ""));
    var alice, pw := "alice", "pw";
    assert !JsString.IsJsWhitespace(alice[0]) && !JsString.IsJsWhitespace(pw[0]);
    FilledLoginOpensHome(LoginScreen.LoginForm(alice, pw));
  }

  /** The navigator as the component holds it: two mutable flags. */
  class Navigator {
    var loggedIn: bool
    var creatingAccount: bool

    function State(): NavState
      reads this
    {
      NavState(loggedIn, creatingAccount)
    }

    constructor ()
      ensures State() == Initial && Rendered(State()) == ShowLogin
    {
      loggedIn, creatingAccount := false, false;
    }

    /** Login's onLogin: `setLoggedIn(true)`. */
    method LogIn()
      requires Consistent(State()) && Enabled(State(), OnLogin)
      modifies this`loggedIn
      ensures State() == Apply(old(State()), OnLogin)
      ensures Consistent(State()) && Rendered(State()) == ShowHome
    {
      loggedIn := true;
    }

    /** Home's onLogout: `setLoggedIn(false)`. */
    method LogOut()
      requires Consistent(State()) && Enabled(State(), OnLogout)
      modifies this`loggedIn
      ensures State() == Apply(old(State()), OnLogout)
      ensures Consistent(State()) && Rendered(State()) == ShowLogin
    {
      loggedIn := false;
    }

    /** Login's onCreateAccount: `setCreatingAccount(true)`. */
    method StartCreatingAccount()
      requires Consistent(State()) && Enabled(State(), OnCreateAccount)
      modifies this`creatingAccount
      ensures State() == Apply(old(State()), OnCreateAccount)
      ensures Consistent(State()) && Rendered(State()) == ShowCreateAccount
    {
      creatingAccount := true;
    }

    /** Create Account's onBack: `setCreatingAccount(false)`. */
    method GoBack()
      requires Consistent(State()) && Enabled(State(), OnBack)
      modifies this`creatingAccount
      ensures State() == Apply(old(State()), OnBack)
      ensures Consistent(State()) && Rendered(State()) == ShowLogin
    {
      creatingAccount := false;
    }
  }
}
