# Authentication flow of a React Native client, in Dafny

This project models the two pieces of decision logic behind the app's login:

- the **auth sagas** `signIn`, `getMe` and `signOut` (`AuthSagas`, in
  `auth_sagas.dfy`), which turn the outcomes of the calls `login`,
  `getMeApi`, `getHomeInfo` and `LocalStorage.clearStorage` into the redux
  actions `signInSuccess(token)` and `requestAuthFailed(message)`;
- the **login screen** controller (`Login`, in `login_screen.dfy`): the form
  validator `checkValid` as a pure function, and the component as the class
  `LoginScreen`, whose fields are the component state (`email`, `password`,
  `forgotEmail`, `isShowForgotDialog`, `showIndicator`, `showSplash`,
  `language`) plus `this.timeOut`, and whose handlers append their effects
  (alerts, dispatches, navigation, the forgot-password request, hiding the
  native splash, clearing the timer) to an event log.

`AuthActions` (`auth_actions.dfy`) holds the redux actions and the three
fixed failure messages; `Options` (`options.dfy`) holds `Option` and
JavaScript truthiness of a possibly missing string.

Each saga is a function from the outcomes of its external calls to the
ordered trace of its effects (calls made, nested saga runs, actions put);
`Emitted` projects a trace onto the actions put. Recording the calls as well
as the puts lets the model state that `getHomeInfo` is not called after
`getMeApi` throws, and that `signIn` runs `getMe` with the returned token
and no `directCall`.

`getMe` catches its own exception, so on an accepted reply whose profile or
home fetch throws, `signIn` emits the network failure and then
`signInSuccess` (`SignInProfileFails`).
`getHomeInfo` is neither imported nor defined in the sagas file, so
referencing it throws unless a global of that name exists; it is modelled as
a call that may complete or throw. The emitted actions are the same either
way, though the trace of a throwing `getHomeInfo` still records the call.

External inputs are parameters: the outcomes of the network and storage
calls (`Backend`, `StorageOutcome`, `ResetReply`), the token and language
read from local storage or the failure of those reads (`StoredRead`, for
`OnInitial`), the previous and current auth props (`ComponentDidUpdate`), the predicates `checkEmail` and `checkPass`, and the
current locale (constructor arguments of `LoginScreen`). i18n strings are
opaque keys (`Text.Localized`).

## Model

| member | source | states |
|---|---|---|
| AuthSagas.SignIn | redux/sagas/auth.js:9-21 | the first effect is `login(email, password)`; at most two actions are emitted; every failure message is one of the three fixed strings or the server's |
| AuthSagas.RejectionMessage | redux/sagas/auth.js:16 | a rejected login reports the reply's `error.message` when it has one and `'Wrong Login information'` otherwise |
| AuthSagas.GetMe | redux/sagas/auth.js:23-33 | the first effect is `getMeApi(token)`; `login` is never called; at most one action, which is the network failure or `signInSuccess` of the input token |
| AuthSagas.SignOut | redux/sagas/auth.js:35-41 | the first effect is `clearStorage()`; at most one action, with a fixed message |
| AuthSagas.SignInRejected | redux/sagas/auth.js:11-16 | a falsy reply or `auth == false` emits exactly one failure, with the server's `error.message` when present and `'Wrong Login information'` otherwise; `getMe` and `getMeApi` are never run |
| AuthSagas.SignInLoginThrows | redux/sagas/auth.js:10-19 | a throwing `login` emits exactly `[requestAuthFailed('Network Connection Lost!')]` |
| AuthSagas.SignInAccepted | redux/sagas/auth.js:12-14 | an accepted reply runs `getMe` next with `ret.token` and no `directCall`, followed by its effects, and `signInSuccess(ret.token)` is the last effect and the last action |
| AuthSagas.SignInProfileFails | redux/sagas/auth.js:12-32 | an accepted reply with `getMeApi` or `getHomeInfo` throwing emits the network failure and then `signInSuccess(ret.token)`, in that order |
| AuthSagas.SignInCompletes | redux/sagas/auth.js:12-29 | an accepted reply with both fetches completing emits only `signInSuccess(ret.token)` |
| AuthSagas.SignInSuccessIff | redux/sagas/auth.js:11-16 | `signInSuccess(token)` is emitted if and only if the reply was accepted and carried that token |
| AuthSagas.GetMeFails | redux/sagas/auth.js:24-32 | either fetch throwing emits exactly the network failure; a throwing `getMeApi` means `getHomeInfo` is never called |
| AuthSagas.GetMeCompletes | redux/sagas/auth.js:25-29 | both fetches completing emit `[signInSuccess(token)]` with the input token when `directCall` holds and nothing otherwise, after calling `getMeApi` then `getHomeInfo` |
| AuthSagas.SignOutReports | redux/sagas/auth.js:35-41 | only a synchronous throw of `clearStorage` is reported, as `[requestAuthFailed('Sign Out Failed')]`; a later rejection emits nothing |
| Login.CheckValid | containers/Auth/LoginScreen/index.js:126-137 | each of the four results, characterised in both directions: empty invalid email, non-empty invalid email, valid email with invalid password (`login.invalidEmail`), both valid |
| Login.EmailCheckedFirst | containers/Auth/LoginScreen/index.js:128-132 | an invalid email makes `checkValid` fail the same way whatever the password |
| Login.Upper | containers/Auth/LoginScreen/index.js:150 | the locale passed to the reset request is the locale upper-cased letter by letter, same length |
| Login.LoginScreen.constructor | containers/Auth/LoginScreen/index.js:35-50 | the initial state: empty inputs, dialog and indicator off, splash on, `'ENGLISH'`, no timer, empty log |
| Login.LoginScreen.OnInitial | containers/Auth/LoginScreen/index.js:78-93 | a rejected storage read changes nothing (no dispatch, no timer, splash stays); otherwise a truthy stored token dispatches `getMe(token, true)` and arms no timer, no token arms the timer and dispatches nothing, stored `'en'` sets `'ENGLISH'`, and nothing else changes |
| Login.LoginScreen.SplashTimerFires | containers/Auth/LoginScreen/index.js:87-91 | an armed timer firing sets `showSplash` false and hides the native splash; otherwise nothing happens |
| Login.LoginScreen.ComponentWillUnmount | containers/Auth/LoginScreen/index.js:56-60 | `clearTimeout` is called if and only if a timer handle was set, cancelling it when still armed |
| Login.LoginScreen.ComponentDidUpdate | containers/Auth/LoginScreen/index.js:62-72 | an effect only on the `fetchAuth` true-to-false edge: indicator off, then an alert of a newly set `signInError` or navigation to `'MainStack'`, never both; an error already set before navigates |
| Login.LoginScreen.OnChangeInput | containers/Auth/LoginScreen/index.js:95-101 | index 0 changes only `email`; any other index changes only `password` |
| Login.LoginScreen.OnLogin | containers/Auth/LoginScreen/index.js:103-113 | when `checkValid` passes, `showIndicator` becomes true and `login(email, password)` is dispatched with the current inputs; otherwise only its message is alerted |
| Login.LoginScreen.OnSubmitEdit | containers/Auth/LoginScreen/index.js:115-124 | an invalid email alerts exactly the message `checkValid` gives for it; a valid one moves focus to the password field |
| Login.LoginScreen.ForgotPassword | containers/Auth/LoginScreen/index.js:146-168 | closes the dialog and turns the indicator on; calls the API with the upper-cased locale only for a valid email; the success alert only on `res.success`; the invalid-email branch and a rejected call leave the indicator on |

Every handler of `LoginScreen` also keeps `Valid()`: `showSplash` becomes
false only after the timer was armed, and every dispatch in the log is
`login(...)` or `getMe(token, true)`. So on the auto-login path, which arms
no timer, the screen keeps rendering its splash component even after a
failed auto-login, when `ComponentDidUpdate` has alerted the error and hidden
only the native splash.

## Left out

- Route configuration, the root saga's `takeLatest` wiring (cancellation of
  in-flight sagas), store assembly and the selector: configuration or
  library semantics with no logic of their own in the files.
- The auth reducer, which turns the emitted actions into `fetchAuth` and
  `signInError`, is not part of this model; `ComponentDidUpdate` takes both
  props as inputs.
- Rendering, `renderActivity`, `showActionSheet`, `onFocus`, the
  `Platform.OS` branch of `showForgotDialog`, `hideForgotDialog`, and
  `onChangeLanguage` (referenced but not defined): UI only.
- The bodies of `login`, `getMeApi`, `getHomeInfo`, `forgotPassword`,
  `LocalStorage` and i18n: foreign calls, represented by their outcomes or by
  opaque keys. `getMeApi`'s result is unused by the saga and not modelled.
- `checkEmail` and `checkPass`: not shown, kept as uninterpreted predicates.
- Asynchrony: `setState` is applied at once, each async handler runs to
  completion atomically (no interleaving at its `await`s), and the timer is
  an armed/fired/cleared flag. A second `onInitial` replaces the handle; the
  earlier timer, which would still fire in JavaScript, is not tracked.
- Login.Upper: upper-cases ASCII letters only; `toUpperCase` also maps other
  Unicode letters, which locale codes do not contain.
- AuthSagas.SignIn: `error.message` is present or absent; lodash `get` would
  return a stored `null` as is, which the model does not distinguish.
- Login.LoginScreen.ForgotPassword: a response without a `success` field, or
  no response object at all, is not modelled separately from a rejection or
  `success == false`.
- `put` itself is assumed never to throw.
