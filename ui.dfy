/** What the sign-up and sign-in screens do to the outside world, recorded
    as values: loading toggles, calls into the session store, alerts and
    route replacements, in the order they happen. */
module Ui {
  import opened Backend

  datatype Route = LoginRoute | TabsRoute

  /** The alerts the two screens raise; each kind stands for one fixed
      title and message pair, and the failure kinds carry the store's message. */
  datatype AlertKind =
    | FillAllFields
    | PasswordMismatch
    | PasswordTooShort
    | RegisterFailed(message: string)
    | RegisterSucceeded
    | LoginFailed(message: string)

  /** An alert, with the route its confirm button replaces the screen with, if any. */
  datatype Alert = Alert(kind: AlertKind, onConfirm: Option<Route>)

  datatype Effect =
    | SetLoading(on: bool)
    | CallSignUp(email: string, password: string, fullName: string)
    | CallSignIn(email: string, password: string)
    | ShowAlert(alert: Alert)
    | ReplaceRoute(route: Route)

  /** How many calls into the session store a trace makes. */
  function StoreCalls(effects: seq<Effect>): nat
  {
    if effects == [] then 0
    else (if effects[0].CallSignUp? || effects[0].CallSignIn? then 1 else 0) + StoreCalls(effects[1..])
  }

  /** How many alerts a trace raises. */
  function AlertsShown(effects: seq<Effect>): nat
  {
    if effects == [] then 0
    else (if effects[0].ShowAlert? then 1 else 0) + AlertsShown(effects[1..])
  }

  /** How many route replacements a trace makes. */
  function Navigations(effects: seq<Effect>): nat
  {
    if effects == [] then 0
    else (if effects[0].ReplaceRoute? then 1 else 0) + Navigations(effects[1..])
  }

  /** Counting distributes over the concatenation of two traces. */
  lemma {:induction false} CountsAppend(a: seq<Effect>, b: seq<Effect>)
    ensures StoreCalls(a + b) == StoreCalls(a) + StoreCalls(b)
    ensures AlertsShown(a + b) == AlertsShown(a) + AlertsShown(b)
    ensures Navigations(a + b) == Navigations(a) + Navigations(b)
  {
    if a == [] {
      assert a + b == b;
    } else {
      assert (a + b)[1..] == a[1..] + b;
      CountsAppend(a[1..], b);
    }
  }

  /** The counts of a four-step trace, step by step. */
  lemma CountsOfFour(e0: Effect, e1: Effect, e2: Effect, e3: Effect)
    ensures StoreCalls([e0, e1, e2, e3]) ==
              StoreCalls([e0]) + StoreCalls([e1]) + StoreCalls([e2]) + StoreCalls([e3])
    ensures AlertsShown([e0, e1, e2, e3]) ==
              AlertsShown([e0]) + AlertsShown([e1]) + AlertsShown([e2]) + AlertsShown([e3])
    ensures Navigations([e0, e1, e2, e3]) ==
              Navigations([e0]) + Navigations([e1]) + Navigations([e2]) + Navigations([e3])
  {
    assert [e0, e1, e2, e3] == [e0] + ([e1] + ([e2] + [e3]));
    CountsAppend([e2], [e3]);
    CountsAppend([e1], [e2] + [e3]);
    CountsAppend([e0], [e1] + ([e2] + [e3]));
  }
}
