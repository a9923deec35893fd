/** The sign-up screen: four text fields, a loading flag, and the handler
    that validates the fields in a fixed order before it calls the session
    store's `signUp`. */
module Register {
  import opened Backend
  import opened Ui
  import Auth

  /** The shortest password the screen accepts. */
  const MinPasswordLength: nat := 6

  predicate AllFilled(fullName: string, email: string, password: string, confirmPassword: string)
  {
    fullName != [] && email != [] && password != [] && confirmPassword != []
  }

  /** The validation chain: empty fields first, then a mismatch, then a
      short password. The first failing check names the alert; no alert
      means the form may be sent. */
  function RegisterCheck(fullName: string, email: string, password: string, confirmPassword: string): (a: Option<AlertKind>)
    ensures a == Some(FillAllFields) <==> !AllFilled(fullName, email, password, confirmPassword)
    ensures a == Some(PasswordMismatch) <==>
              AllFilled(fullName, email, password, confirmPassword) && password != confirmPassword
    ensures a == Some(PasswordTooShort) <==>
              AllFilled(fullName, email, password, confirmPassword) && password == confirmPassword
              && |password| < MinPasswordLength
    ensures a == None <==>
              AllFilled(fullName, email, password, confirmPassword) && password == confirmPassword
              && |password| >= MinPasswordLength
  {
    if fullName == [] || email == [] || password == [] || confirmPassword == [] then Some(FillAllFields)
    else if password != confirmPassword then Some(PasswordMismatch)
    else if |password| < MinPasswordLength then Some(PasswordTooShort)
    else None
  }

  /** The alert raised once `signUp` has resolved. The handler tests the
      error string for truthiness, so an empty message reads as success. */
  function SignUpAlert(res: Response): Alert
  {
    if res.Failed? && res.error != [] then Alert(RegisterFailed(res.error), None)
    else Alert(RegisterSucceeded, Some(LoginRoute))
  }

  /** Everything `handleRegister` does, in order. */
  function RegisterEffects(fullName: string, email: string, password: string, confirmPassword: string,
                           reply: Outcome): seq<Effect>
  {
    match RegisterCheck(fullName, email, password, confirmPassword)
    case Some(a) => [ShowAlert(Alert(a, None))]
    case None =>
      [SetLoading(true), CallSignUp(email, password, fullName), SetLoading(false),
       ShowAlert(SignUpAlert(Auth.AuthReply(reply)))]
  }

  /** A form that fails a check raises exactly that one alert and never
      calls `signUp`. */
  lemma InvalidFormRaisesOneAlert(fullName: string, email: string, password: string, confirmPassword: string,
                                  reply: Outcome)
    requires RegisterCheck(fullName, email, password, confirmPassword).Some?
    ensures var effects := RegisterEffects(fullName, email, password, confirmPassword, reply);
            && effects == [ShowAlert(Alert(RegisterCheck(fullName, email, password, confirmPassword).value, None))]
            && StoreCalls(effects) == 0 && AlertsShown(effects) == 1
  {
  }

  /** A form that passes every check calls `signUp` exactly once, with
      (email, password, full name), between switching loading on and off,
      and then raises exactly one alert. */
  lemma ValidFormCallsSignUpOnce(fullName: string, email: string, password: string, confirmPassword: string,
                                 reply: Outcome)
    requires RegisterCheck(fullName, email, password, confirmPassword).None?
    ensures var effects := RegisterEffects(fullName, email, password, confirmPassword, reply);
            && |effects| == 4
            && effects[0] == SetLoading(true)
            && effects[1] == CallSignUp(email, password, fullName)
            && effects[2] == SetLoading(false)
            && effects[3].ShowAlert?
            && StoreCalls(effects) == 1 && AlertsShown(effects) == 1 && Navigations(effects) == 0
  {
    var effects := RegisterEffects(fullName, email, password, confirmPassword, reply);
    CountsOfFour(effects[0], effects[1], effects[2], effects[3]);
    assert effects == [effects[0], effects[1], effects[2], effects[3]];
  }

  /** The alert after the call: the backend's message on an error answer,
      the generic message on a rejection, and on success the success alert
      whose confirm button replaces the screen with the login route. */
  lemma SignUpOutcomeAlert(fullName: string, email: string, password: string, confirmPassword: string,
                           reply: Outcome)
    requires RegisterCheck(fullName, email, password, confirmPassword).None?
    ensures var last := RegisterEffects(fullName, email, password, confirmPassword, reply)[3];
            && (reply.Err? && reply.message != [] ==> last == ShowAlert(Alert(RegisterFailed(reply.message), None)))
            && (reply == Throw ==> last == ShowAlert(Alert(RegisterFailed(Auth.UnexpectedError), None)))
            && (reply == Ok ==> last == ShowAlert(Alert(RegisterSucceeded, Some(LoginRoute))))
  {
  }

  /** For a filled form whose two passwords agree, the length alone decides:
      the bound is inclusive, so six characters pass and five do not. */
  lemma SixCharactersIsLongEnough(fullName: string, email: string, password: string)
    requires AllFilled(fullName, email, password, password)
    ensures RegisterCheck(fullName, email, password, password) == None <==> |password| >= 6
    ensures |password| == 6 ==> RegisterCheck(fullName, email, password, password) == None
    ensures |password| == 5 ==> RegisterCheck(fullName, email, password, password) == Some(PasswordTooShort)
  {
  }

  class RegisterScreen {
    var fullName: string
    var email: string
    var password: string
    var confirmPassword: string
    var loading: bool
    /** What the screen has done to the outside world so far. */
    var effects: seq<Effect>
    /** The session store whose `signUp` the screen calls. */
    const auth: Auth.AuthStore

    constructor (auth: Auth.AuthStore)
      ensures fullName == [] && email == [] && password == [] && confirmPassword == []
      ensures !loading && effects == [] && this.auth == auth
    {
      fullName, email, password, confirmPassword := [], [], [], [];
      loading, effects := false, [];
      this.auth := auth;
    }

    /** `handleRegister`, with `reply` the backend's answer to the sign-up call. */
    method HandleRegister(reply: Outcome)
      modifies this`loading, this`effects
      ensures effects == old(effects) + RegisterEffects(fullName, email, password, confirmPassword, reply)
      ensures loading == if RegisterCheck(fullName, email, password, confirmPassword).None? then false else old(loading)
    {
      if fullName == [] || email == [] || password == [] || confirmPassword == [] {
        effects := effects + [ShowAlert(Alert(FillAllFields, None))];
        return;
      }
      if password != confirmPassword {
        effects := effects + [ShowAlert(Alert(PasswordMismatch, None))];
        return;
      }
      if |password| < MinPasswordLength {
        effects := effects + [ShowAlert(Alert(PasswordTooShort, None))];
        return;
      }
      loading := true;
      effects := effects + [SetLoading(true)];
      effects := effects + [CallSignUp(email, password, fullName)];
      var res := auth.SignUp(email, password, fullName, reply);
      loading := false;
      effects := effects + [SetLoading(false)];
      if res.Failed? && res.error != [] {
        effects := effects + [ShowAlert(Alert(RegisterFailed(res.error), None))];
      } else {
        effects := effects + [ShowAlert(Alert(RegisterSucceeded, Some(LoginRoute)))];
      }
    }
  }
}
