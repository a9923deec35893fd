/** The sign-in screen: two text fields, a loading flag, and the handler
    that refuses empty fields and otherwise calls the session store's
    `signIn`, then alerts or moves on to the tabs. */
module Login {
  import opened Backend
  import opened Ui
  import Auth

  /** The only check before the call: both fields must be non-empty. */
  function LoginCheck(email: string, password: string): Option<AlertKind>
  {
    if email == [] || password == [] then Some(FillAllFields) else None
  }

  /** Everything `handleLogin` does, in order. The handler tests the error
      string for truthiness, so an empty message reads as success. */
  function LoginEffects(email: string, password: string, reply: Outcome): seq<Effect>
  {
    match LoginCheck(email, password)
    case Some(a) => [ShowAlert(Alert(a, None))]
    case None =>
      var res := Auth.AuthReply(reply);
      [SetLoading(true), CallSignIn(email, password), SetLoading(false)]
      + (if res.Failed? && res.error != [] then [ShowAlert(Alert(LoginFailed(res.error), None))]
         else [ReplaceRoute(TabsRoute)])
  }

  /** An empty field raises the fill-all-fields alert and nothing else. */
  lemma EmptyFieldBlocksSignIn(email: string, password: string, reply: Outcome)
    requires email == [] || password == []
    ensures var effects := LoginEffects(email, password, reply);
            && effects == [ShowAlert(Alert(FillAllFields, None))]
            && StoreCalls(effects) == 0 && Navigations(effects) == 0
  {
  }

  /** With both fields filled `signIn` is called exactly once, with (email,
      password), between switching loading on and off. */
  lemma FilledFormCallsSignInOnce(email: string, password: string, reply: Outcome)
    requires email != [] && password != []
    ensures var effects := LoginEffects(email, password, reply);
            && |effects| == 4
            && effects[0] == SetLoading(true)
            && effects[1] == CallSignIn(email, password)
            && effects[2] == SetLoading(false)
            && StoreCalls(effects) == 1
            && AlertsShown(effects) + Navigations(effects) == 1
  {
    var effects := LoginEffects(email, password, reply);
    CountsOfFour(effects[0], effects[1], effects[2], effects[3]);
    assert effects == [effects[0], effects[1], effects[2], effects[3]];
  }

  /** A failed sign-in alerts with the message and stays on the screen; a
      successful one replaces the route with the tabs and raises no alert. */
  lemma SignInOutcome(email: string, password: string, reply: Outcome)
    requires email != [] && password != []
    ensures var effects := LoginEffects(email, password, reply);
            && (reply.Err? && reply.message != [] ==>
                  effects[3] == ShowAlert(Alert(LoginFailed(reply.message), None)) && Navigations(effects) == 0)
            && (reply == Throw ==>
                  effects[3] == ShowAlert(Alert(LoginFailed(Auth.UnexpectedError), None)) && Navigations(effects) == 0)
            && (reply == Ok ==> effects[3] == ReplaceRoute(TabsRoute) && AlertsShown(effects) == 0)
  {
    var effects := LoginEffects(email, password, reply);
    CountsOfFour(effects[0], effects[1], effects[2], effects[3]);
    assert effects == [effects[0], effects[1], effects[2], effects[3]];
  }

  class LoginScreen {
    var email: string
    var password: string
    var loading: bool
    /** What the screen has done to the outside world so far. */
    var effects: seq<Effect>
    /** The session store whose `signIn` the screen calls. */
    const auth: Auth.AuthStore

    constructor (auth: Auth.AuthStore)
      ensures email == [] && password == [] && !loading && effects == [] && this.auth == auth
    {
      email, password, loading, effects := [], [], false, [];
      this.auth := auth;
    }

    /** `handleLogin`, with `reply` the backend's answer to the sign-in call. */
    method HandleLogin(reply: Outcome)
      modifies this`loading, this`effects
      ensures effects == old(effects) + LoginEffects(email, password, reply)
      ensures loading == if LoginCheck(email, password).None? then false else old(loading)
    {
      if email == [] || password == [] {
        effects := effects + [ShowAlert(Alert(FillAllFields, None))];
        return;
      }
      loading := true;
      effects := effects + [SetLoading(true)];
      effects := effects + [CallSignIn(email, password)];
      var res := auth.SignIn(email, password, reply);
      loading := false;
      effects := effects + [SetLoading(false)];
      if res.Failed? && res.error != [] {
        effects := effects + [ShowAlert(Alert(LoginFailed(res.error), None))];
      } else {
        effects := effects + [ReplaceRoute(TabsRoute)];
      }
    }
  }
}
