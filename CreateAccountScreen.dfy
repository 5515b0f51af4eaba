/**
 * The account-creation form (app/CreateAccountScreen.js): five text fields and
 * an exercise-frequency picker, a Create Account button that validates them
 * and a Back button that does not.
 */
module CreateAccountScreen {
  import opened JsString
  import opened Props

  /** The component's local state; `exercise` holds the picker's selected value. */
  datatype AccountForm = AccountForm(
    username: string, password: string, email: string,
    height: string, weight: string, exercise: string)

  /** The picker's sentinel value, meaning nothing has been chosen. */
  const Placeholder := "placeholder"

  /** The values the picker offers, in order; the first is the sentinel. */
  const ExerciseOptions: seq<string> :=
    [Placeholder, "frequently", "occasionally", "rarely", "never", "prefer_not_to_say"]

  /** Every text field starts empty and the picker on the sentinel. */
  const InitialForm := AccountForm("", "", "", "", "", Placeholder)

  const MissingFields := ShowAlert("Error", "Please fill out all fields and select exercise frequency")

  /** The reference meaning of a complete form: every text field filled in and a real choice made. */
  predicate Complete(form: AccountForm) {
    HasVisibleChar(form.username) && HasVisibleChar(form.password) && HasVisibleChar(form.email)
    && HasVisibleChar(form.height) && HasVisibleChar(form.weight) && form.exercise != Placeholder
  }

  /** The body of the 'Account Created' alert. */
  function Summary(form: AccountForm): (text: string)
    ensures |text| == 53 + |form.username| + |form.email| + |form.height| + |form.weight| + |form.exercise|
    ensures var head := "Username: " + form.username + "\nEmail: ";
            |head| <= |text| && text[..|head|] == head
    ensures var tail := " kg\nExercise: " + form.exercise;
            |tail| <= |text| && text[|text| - |tail|..] == tail
  {
    "Username: " + form.username + "\nEmail: " + form.email + "\nHeight: " + form.height
    + " cm\nWeight: " + form.weight + " kg\nExercise: " + form.exercise
  }

  /**
   * handleCreate: on a complete form, shows the summary and then calls onBack
   * exactly once; otherwise shows the 'Error' alert and calls nothing.
   * It returns no new form, so no field changes.
   */
  function HandleCreate(form: AccountForm): (effects: seq<Effect>)
    ensures Invocations(effects, OnBack) == (if Complete(form) then 1 else 0)
    ensures Complete(form) ==> effects == [ShowAlert("Account Created", Summary(form)), Invoke(OnBack)]
    ensures !Complete(form) ==> effects == [MissingFields]
  {
    var allFieldsFilled :=
      Trim(form.username) != "" && Trim(form.password) != "" && Trim(form.email) != ""
      && Trim(form.height) != "" && Trim(form.weight) != "" && form.exercise != Placeholder;
    if allFieldsFilled then [ShowAlert("Account Created", Summary(form)), Invoke(OnBack)] else [MissingFields]
  }

  /** The Back button: onBack once, whatever the fields hold, and no alert. */
  function BackPressed(form: AccountForm): (effects: seq<Effect>)
    ensures Invocations(effects, OnBack) == 1 && NoAlert(effects)
  {
    [Invoke(OnBack)]
  }

  /** Until a frequency is picked, creation fails even with every text field filled. */
  lemma PlaceholderRejected(form: AccountForm)
    requires form.exercise == Placeholder
    ensures HandleCreate(form) == [MissingFields]
    ensures Invocations(HandleCreate(form), OnBack) == 0
  {
  }

  /** The form as first shown is rejected. */
  lemma UntouchedFormRejected()
    ensures HandleCreate(InitialForm) == [MissingFields]
  {
  }

  /** Of the picker's values, exactly the first one fails the exercise condition. */
  lemma OnlySentinelRejected()
    ensures forall i :: 0 <= i < |ExerciseOptions| ==> (ExerciseOptions[i] == Placeholder <==> i == 0)
  {
  }

  /** With all text fields filled, any real choice from the picker is accepted. */
  lemma EveryChoiceAccepted(form: AccountForm, i: nat)
    requires 0 < i < |ExerciseOptions| && form.exercise == ExerciseOptions[i]
    requires HasVisibleChar(form.username) && HasVisibleChar(form.password) && HasVisibleChar(form.email)
    requires HasVisibleChar(form.height) && HasVisibleChar(form.weight)
    ensures Invocations(HandleCreate(form), OnBack) == 1
  {
    OnlySentinelRejected();
  }
}
