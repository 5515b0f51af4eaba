# Food-gallery mobile app: navigator, credential forms and card editor

This project models the client logic of a small React Native app with three screens.

- **Navigator** (`app/index.js`): two flags, `loggedIn` and `creatingAccount`, choose which screen is mounted. Home wins over Create Account, which wins over Login. The four callbacks the navigator passes to its screens are the only way the flags change.
- **Login** (`app/LoginScreen.js`): `handleLogin` calls `onLogin` only when the username and the password each hold a character that JavaScript's `trim` keeps. Otherwise it raises the 'Login Failed' alert.
- **Create Account** (`app/CreateAccountScreen.js`): `handleCreate` needs five filled text fields and an exercise frequency other than the `'placeholder'` sentinel. On success it shows a summary and calls `onBack` once. Otherwise it raises the 'Error' alert.
- **Home** (`app/HomeScreen.js`): an ordered list of food cards, each with an image, a dish name, a calorie count and ingredients. A modal either adds a card from a picked image or shows an existing card, which it can edit (with Cancel Edit restoring a backup), save or delete.

Modules:

- `JsString` models ECMAScript's `String.prototype.trim`. It strips the WhiteSpace and LineTerminator characters of the ECMAScript standard. `Trim` is proved to return the empty string exactly when the input has no visible character (`HasVisibleChar`). That predicate is the reference meaning the validators are stated against.
- `Props` holds the callbacks and the effects a button handler produces: alerts shown and callbacks called, in order. So "calls `onBack` exactly once" is a count over the effects.
- `LoginScreen` and `CreateAccountScreen` are pure. A form is a value, and a handler is a function from the form to its effects. A handler returns no new form, so it cannot change any field.
- `Index` has the navigator as a state machine (`Rendered`, `Apply`, traces of callbacks from the mounted screen) and as the class `Navigator`, whose methods are specified by `Apply`. It also connects the form handlers to the navigator (`Dispatch`).
- `Home` has the class `HomeScreen`, whose fields are the component's React state variables. Each handler is a method. The invariant `Valid` says two things. A target index always names an existing card and never coexists with new-image mode. A closed modal carries no session.

Each React setter is modelled as an immediate assignment. Every handler reads only state it has not already set in the same call, so React's batching of updates gives the same result.

Two points about the modal's state:

- While the modal is open, at most one of "held image in new-image mode" and "target index" holds.
  - `openModalForNewImage` (HomeScreen.js:128-142) does not set `tempImage`. Only the picker paths do (HomeScreen.js:100, 120).
  - `Valid` states "at most one".
  - `ImageChosen` and `OpenEditModal` are each proved to set up exactly one mode.
- The save branch for an existing card (HomeScreen.js:189-197) has no bounds check. `Valid` shows that the index is always in range when that branch runs.

## Model

| member | source | states |
|---|---|---|
| `JsString.Trim` | mobile-app/app/LoginScreen.js:26 | `trim()` yields the empty string exactly when every character is ECMAScript white space or a line terminator; otherwise the result neither starts nor ends with one |
| `JsString.TrimIsSlice` | mobile-app/app/CreateAccountScreen.js:29-33 | `trim()` keeps a contiguous part of the input and removes only white space before and after it |
| `LoginScreen.HandleLogin` | mobile-app/app/LoginScreen.js:25-31 | `onLogin` is called once exactly when username and password both hold a visible character. Otherwise it is not called and the only effect is the 'Login Failed' alert. `onCreateAccount` is never called |
| `LoginScreen.CreateAccountPressed` | mobile-app/app/LoginScreen.js:72-74 | the Create Account button calls `onCreateAccount` once, whatever the fields hold, with no alert and no `onLogin` |
| `LoginScreen.UntouchedLoginFails` | mobile-app/app/LoginScreen.js:20-21 | both fields start empty, so pressing Login at once raises 'Login Failed' |
| `LoginScreen.BlankFieldFails` | mobile-app/app/LoginScreen.js:26-29 | if either field is empty or white space only, the only effect is the 'Login Failed' alert, whatever the other field holds |
| `CreateAccountScreen.HandleCreate` | mobile-app/app/CreateAccountScreen.js:27-47 | `onBack` is called once exactly when the five text fields hold a visible character and the exercise is not `'placeholder'`. It then follows the 'Account Created' summary. Otherwise the only effect is the 'Error' alert |
| `CreateAccountScreen.Summary` | mobile-app/app/CreateAccountScreen.js:40 | the 'Account Created' text opens with the username and email labels, ends with the exercise line, and is the five fields plus 53 characters of template long |
| `CreateAccountScreen.BackPressed` | mobile-app/app/CreateAccountScreen.js:126 | the Back button calls `onBack` once, with no validation and no alert |
| `CreateAccountScreen.PlaceholderRejected` | mobile-app/app/CreateAccountScreen.js:34 | with the sentinel selected, creation fails whatever the text fields hold |
| `CreateAccountScreen.UntouchedFormRejected` | mobile-app/app/CreateAccountScreen.js:19-24 | the form as first shown (empty fields, sentinel selected) is rejected |
| `CreateAccountScreen.OnlySentinelRejected` | mobile-app/app/CreateAccountScreen.js:112-117 | of the six picker values, exactly the first (`'placeholder'`) fails the exercise condition |
| `CreateAccountScreen.EveryChoiceAccepted` | mobile-app/app/CreateAccountScreen.js:28-36 | with the text fields filled, each non-sentinel picker value leads to exactly one `onBack` |
| `Index.Rendered` | mobile-app/app/index.js:25-38 | exactly one screen is rendered: Home iff `loggedIn`, Create Account iff not logged in and `creatingAccount`, Login iff neither |
| `Index.Apply` | mobile-app/app/index.js:26-36 | `onLogin`/`onLogout` set `loggedIn` to true/false and leave `creatingAccount`; `onCreateAccount`/`onBack` set `creatingAccount` to true/false and leave `loggedIn` |
| `Index.Owner` | mobile-app/app/index.js:26-36 | which screen holds each callback: Home holds exactly `onLogout`, Create Account exactly `onBack`, Login exactly `onLogin` and `onCreateAccount` |
| `Index.StepKeepsConsistent` | mobile-app/app/index.js:25-38 | a callback from the mounted screen never makes `loggedIn && creatingAccount` true, from any state: the mounting rule alone excludes it |
| `Index.EnabledIsNeeded` | mobile-app/app/index.js:34-35 | the mounting rule matters: `onLogin` fired from the Create Account state would reach `loggedIn && creatingAccount` |
| `Index.TraceKeepsConsistent` | mobile-app/app/index.js:25-38 | any run of callbacks, each from the screen mounted at that moment, preserves `!(loggedIn && creatingAccount)` |
| `Index.NeverLoggedInWhileCreating` | mobile-app/app/index.js:15-18 | from the initial state, `loggedIn && creatingAccount` is never reached |
| `Index.EveryConsistentStateReachable` | mobile-app/app/index.js:15-38 | each of the three other flag combinations is reached by some run |
| `Index.Dispatch` | mobile-app/app/CreateAccountScreen.js:38-42 | alerts change no flag; a single callback changes the flags as `Apply` says |
| `Index.DispatchInOrder` | mobile-app/app/CreateAccountScreen.js:38-42 | a handler's effects take effect in the order it produces them: running two parts in sequence equals running their concatenation |
| `Index.LoginReachesHome` | mobile-app/app/index.js:34-35 | on the login screen, pressing Login mounts Home exactly when `handleLogin` calls `onLogin`, and otherwise changes no flag |
| `Index.CreateReturnsToLogin` | mobile-app/app/index.js:29-30 | a successful account creation returns to the login screen; a rejected one changes no flag |
| `Index.FilledLoginOpensHome` | mobile-app/app/index.js:35 | from the initial state, a login with both fields filled ends with only `loggedIn` set |
| `Index.EmptyPasswordKeepsLogin` | mobile-app/app/LoginScreen.js:26-29 | from the initial state, a login with an empty password changes nothing |
| `Index.AliceScenario` | mobile-app/app/LoginScreen.js:25-31 | "alice" with an empty password stays logged out; "alice"/"pw" renders Home |
| `Index.Navigator.constructor` | mobile-app/app/index.js:15-18 | both flags start false, so Login is rendered |
| `Index.Navigator.LogIn` | mobile-app/app/index.js:35 | `onLogin` from the login screen sets only `loggedIn`, keeps the invariant and mounts Home |
| `Index.Navigator.LogOut` | mobile-app/app/index.js:26 | `onLogout` from Home clears only `loggedIn` and mounts Login |
| `Index.Navigator.StartCreatingAccount` | mobile-app/app/index.js:36 | `onCreateAccount` from the login screen sets only `creatingAccount` and mounts Create Account |
| `Index.Navigator.GoBack` | mobile-app/app/index.js:30 | `onBack` from Create Account clears only `creatingAccount` and mounts Login |
| `Home.WithText` | mobile-app/app/HomeScreen.js:189-197 | saving into card `k` keeps the length, keeps card `k`'s image, gives it the draft's three text fields and leaves every other card alone |
| `Home.RemoveAt` | mobile-app/app/HomeScreen.js:212-214 | `splice(k, 1)` shortens the list by one, keeps cards before `k` and moves each later card down one place in order |
| `Home.WithOwnTextIsIdentity` | mobile-app/app/HomeScreen.js:190-197 | writing a card's own text back into it leaves the list unchanged |
| `Home.RemoveAtLosesOnlyThatCard` | mobile-app/app/HomeScreen.js:213-215 | the removed list plus card `k` is the same multiset as the old list |
| `Home.HomeScreen.constructor` | mobile-app/app/HomeScreen.js:24-54 | the five demo cards, active index 0, closed modal, empty draft and backup |
| `Home.HomeScreen.OpenModalForNewImage` | mobile-app/app/HomeScreen.js:128-142 | draft and backup both equal the given text; no target index; new-image mode; not editing; modal open; list and held image untouched |
| `Home.HomeScreen.ImageChosen` | mobile-app/app/HomeScreen.js:90-123 | a refused permission or a cancelled dialog changes nothing. A picked image is held, and the modal opens in new-image mode with 'Fish and Chips', '650', 'Fish, Fries, Lemon, Tartar Sauce' |
| `Home.HomeScreen.OpenEditModal` | mobile-app/app/HomeScreen.js:147-168 | no card at the index leaves every field unchanged. Otherwise draft and backup equal that card's text, the target is the index, no image is held, new-image mode and editing are off and the modal is open |
| `Home.HomeScreen.BeginEdit` | mobile-app/app/HomeScreen.js:379 | the Edit button in the open modal turns editing on and changes nothing else |
| `Home.HomeScreen.ChangeDishName` | mobile-app/app/HomeScreen.js:350 | typing while editing replaces only the draft dish name |
| `Home.HomeScreen.ChangeCalories` | mobile-app/app/HomeScreen.js:358 | typing while editing replaces only the draft calories |
| `Home.HomeScreen.ChangeIngredients` | mobile-app/app/HomeScreen.js:367 | typing while editing replaces only the draft ingredients |
| `Home.HomeScreen.CancelEdit` | mobile-app/app/HomeScreen.js:228-233 | the draft becomes the backup and editing turns off; the modal stays open and the list is untouched |
| `Home.HomeScreen.ResetModalState` | mobile-app/app/HomeScreen.js:238-247 | no held image, no new-image mode, no target, not editing, empty draft, modal closed; list, active index and backup untouched |
| `Home.HomeScreen.SaveModal` | mobile-app/app/HomeScreen.js:173-201 | new-image mode appends exactly one card (held image plus draft) after the unchanged old cards. Otherwise a target index gets the draft text via `WithText`, and with neither the list is unchanged. Then the modal is reset; active index and backup are untouched |
| `Home.HomeScreen.DiscardModal` | mobile-app/app/HomeScreen.js:206-223 | new-image mode (or no existing target) leaves list and active index alone. Otherwise the target is removed via `RemoveAt` and the active index becomes `min(newLength - 1, k)`, which is -1 when the list empties. Then the modal is reset; backup untouched |
| `Home.CancelledEditSavesNothing` | mobile-app/app/HomeScreen.js:228-233 | open card `i`, Edit, type anything, Cancel Edit, Save: the list is exactly as before |
| `Home.PickedImageSaved` | mobile-app/app/HomeScreen.js:175-182 | pick an image and Save: the list gains exactly one card at the end, made of the image and the default text |
| `Home.PickedImageDiscarded` | mobile-app/app/HomeScreen.js:207-209 | pick an image and Discard: list and active index are unchanged |
| `Home.DiscardThirdDemoCard` | mobile-app/app/HomeScreen.js:212-219 | from the five demo cards, opening card 2 and discarding leaves four cards. The old card 3 is now at index 2 and is the active index |

## Left out

- Scroll tracking (`handleScroll`, HomeScreen.js:68-77) is left out. In the app it sets the active index on every scroll event, from a rounded floating-point offset over a width-derived snap interval. In the model the active index is set only by its initial value and by discard.
- Programmatic scrolling (`scrollToIndex`) is left out: the scroll `openEditModal` requests (HomeScreen.js:167) and the one `saveModal` schedules 100 ms later (HomeScreen.js:185). In the app both reach the scroll listener and move the active index, to the opened card and to the new last card. In the model `OpenEditModal` and `SaveModal` leave the active index unchanged.
- Animation (`Animated` scale interpolation), layout, styles and all JSX rendering are left out, including the modal's image preview.
- Permission requests and the device image library and camera are left out. `ImageChosen` receives their answer as a parameter: `None` for a refusal or a cancel, otherwise the picked URI.
- Bundled images (`require('../assets/foodN.jpg')`) become `Asset` values named by file.
- `OpenEditModal` takes an integer index. JavaScript would also accept non-integer keys, but the carousel only passes the integer position of a card.
- Text entry in the login and account forms (`setUsername`, `setPassword` and the rest) is not modelled as separate steps. A form is any value of its type, so every typed content is covered.
- CreateAccountScreen.Summary: its contract fixes the opening labels, the closing exercise line and the length, not each literal in between, which its body gives.
- The `exercise` field of a form is any string rather than only the six picker values. The validation and `OnlySentinelRejected` cover the picker's values.
- The navigator and the home screen are not composed. Remounting Home after a logout brings back the five demo cards, and the model does not show this.
- The Python backend (`backend/main.py`, `backend/model/main.py`, `backend/model/model.py`) is not part of this model. It is an HTTP endpoint, neural-network training and inference, and floating-point probability filtering. None of it is called by the app's screens.
