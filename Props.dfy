/**
 * The interface between the navigator (app/index.js) and its screens: the
 * callbacks it passes down as props, and what a screen's handler does when
 * a button is pressed.
 */
module Props {

  /** The four callbacks index.js creates for its screens. */
  datatype Callback = OnLogin | OnLogout | OnCreateAccount | OnBack

  /** One observable action of a handler, in the order it happens. */
  datatype Effect =
    | ShowAlert(title: string, message: string)  // Alert.alert(title, message)
    | Invoke(callback: Callback)                 // calls the prop callback

  /** How many times the handler's effects call `cb`. */
  function Invocations(effects: seq<Effect>, cb: Callback): (n: nat)
    ensures n <= |effects|
    ensures n == 0 <==> Invoke(cb) !in effects
  {
    if effects == [] then 0
    else (if effects[0] == Invoke(cb) then 1 else 0) + Invocations(effects[1..], cb)
  }

  /** The handler shows no alert at all. */
  predicate NoAlert(effects: seq<Effect>) {
    forall i :: 0 <= i < |effects| ==> effects[i].Invoke?
  }
}
