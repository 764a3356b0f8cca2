# Login control hook, modelled in Dafny

This project models `useLogin`, the hook behind the university portal's login
screen. The hook owns eight state fields: `selectedType`, `identifier`,
`password`, `captcha`, `captchaInput`, `error`, `loading` and `infoMessage`.
It exposes the handlers that change them: choose a login type, go back,
refresh the CAPTCHA, edit a field, and submit. Submitting runs a local
CAPTCHA guard and calls the authentication service. It then checks the reply
in a fixed order (success flag, profile, non-blank token) and either sets a
1-second timer that hands the session to `onLoginSuccess`, or shows an error
and issues a new challenge.

Modules:

- `Wrappers` (wrappers.dfy): `Option` and `Result`.
- `Text` (text.dfy): `String.prototype.trim` over the full ECMAScript whitespace
  set, and ASCII `toUpperCase`. Lemmas cover blankness, padding, idempotence and
  how the two commute.
- `Auth` (auth.dfy): the service's request and reply types, the six fixed
  messages, the CAPTCHA predicate, the classification of a reply (`Validate`,
  `Attempt`), and lemmas about the guard.
- `LoginSpec` (login_spec.dfy): the eight fields as one `Form` value, and each
  handler as a function on it. Also sequences of events (`Run`) and the
  properties proved about them.
- `LoginHook` (login_control.dfy): class `LoginControl`. Its fields are the
  hook's state. Its methods update them in the order the hook calls its
  setters, and each method's postcondition ties the new fields to the
  matching `LoginSpec` function.

Inputs that the code gets from outside become parameters:

- `generated` is the next value of the random `generateCaptcha`, which is not
  part of this model. It may equal the old challenge.
- `reply` is how the awaited `autenticacionService.login` call settles. It
  either resolves with an optional body or rejects with an `Error` or with
  some other value.
- `hasCallback` says whether `onLoginSuccess` was provided.

Two consequences of the code's order of checks:

- `error` and `infoMessage` are not always exclusive. The CAPTCHA guard
  (useLogin.ts:46-50) sets `error` and leaves `infoMessage` as it was, so
  after a successful login a mistyped challenge shows both
  (`LoginSpec.GuardRejectionKeepsInfo`). Every other event keeps the two
  exclusive (`LoginSpec.StatusExclusivePreserved`).
- The CAPTCHA mismatch is an early return before the `try` (lines 46-50). It
  leaves `loading` and `infoMessage` unchanged and never reaches the
  `finally`.

## Model

| member | source | states |
|---|---|---|
| `Text.TrimStart` | src/components/pages/Autenticacion/hooks/useLogin.ts:46 | the result is a suffix of the input, everything dropped is whitespace, and it does not start with whitespace |
| `Text.TrimEnd` | src/components/pages/Autenticacion/hooks/useLogin.ts:46 | the result is a prefix of the input, everything dropped is whitespace, and it does not end with whitespace |
| `Text.Trim` | src/components/pages/Autenticacion/hooks/useLogin.ts:64 | `trim()` returns a string no longer than its input that neither starts nor ends with whitespace |
| `Text.Upper` | src/components/pages/Autenticacion/hooks/useLogin.ts:46 | `toUpperCase()` keeps the length and upper-cases each character in place |
| `Text.TrimEmptyIffBlank` | src/components/pages/Autenticacion/hooks/useLogin.ts:64-70 | a string trims to `''` exactly when every character is whitespace |
| `Text.TrimSplit` | src/components/pages/Autenticacion/hooks/useLogin.ts:64 | every string is its trimmed form between two blank paddings: `trim` keeps the middle of the string and removes only whitespace |
| `Text.TrimUnique` | src/components/pages/Autenticacion/hooks/useLogin.ts:64 | a trimmed string between two blank paddings is exactly what `trim` returns |
| `Text.TrimmedIsFixed` | src/components/pages/Autenticacion/hooks/useLogin.ts:64 | `trim` leaves a string with no surrounding whitespace unchanged |
| `Text.TrimIdempotent` | src/components/pages/Autenticacion/hooks/useLogin.ts:64 | trimming twice equals trimming once |
| `Text.TrimIgnoresPadding` | src/components/pages/Autenticacion/hooks/useLogin.ts:46 | whitespace added around a string does not change its trimmed form |
| `Text.TrimUpperCommute` | src/components/pages/Autenticacion/hooks/useLogin.ts:46 | trimming then upper-casing equals upper-casing then trimming |
| `Auth.Validate` | src/components/pages/Autenticacion/hooks/useLogin.ts:59-74 | checks in order: no truthy `success` gives the server message or "Credenciales inválidas."; then a missing profile gives the missing-profile message; then a missing or blank token gives the missing-token message. A session comes out iff all three pass, and it holds the trimmed token (non-empty, no padding) and the profile |
| `Auth.CaughtMessage` | src/components/pages/Autenticacion/hooks/useLogin.ts:80-85 | an `Error` surfaces its own message, any other thrown value the generic unexpected-error text |
| `Auth.Attempt` | src/components/pages/Autenticacion/hooks/useLogin.ts:56-86 | a reply logs in iff it resolved and passed validation, with the server message or the default success text as info. A thrown validation error surfaces its message; a rejected call surfaces the caught message |
| `Auth.AttemptSessionWellFormed` | src/components/pages/Autenticacion/hooks/useLogin.ts:63-74 | every session an attempt produces has a non-empty, trimmed token |
| `Auth.CleanSuccessLogsIn` | src/components/pages/Autenticacion/hooks/useLogin.ts:59-76 | a successful reply with a profile and a non-empty token that needs no trimming logs in with that token and profile, showing the server's message or the default success text |
| `Auth.MissingTokenFails` | src/components/pages/Autenticacion/hooks/useLogin.ts:63-72 | a successful reply with a profile but no token fails with the missing-token message |
| `Auth.AcceptedChallengeIsNormal` | src/components/pages/Autenticacion/hooks/useLogin.ts:46 | the challenge is not normalised: only a challenge with no lower-case letter and no surrounding whitespace can ever be matched |
| `Auth.NormalChallengeEchoAccepted` | src/components/pages/Autenticacion/hooks/useLogin.ts:46 | conversely, such a challenge typed back exactly is accepted |
| `Auth.CaptchaIgnoresPadding` | src/components/pages/Autenticacion/hooks/useLogin.ts:46 | whitespace around the typed input never changes the guard's verdict |
| `Auth.CaptchaIgnoresCase` | src/components/pages/Autenticacion/hooks/useLogin.ts:46 | two inputs with the same upper-case form get the same verdict |
| `Auth.LowerCaseInputMatches` | src/components/pages/Autenticacion/hooks/useLogin.ts:46 | the input "ab3d" matches the challenge "AB3D" |
| `Auth.PaddedLowerCaseInputMatches` | src/components/pages/Autenticacion/hooks/useLogin.ts:46 | " ab3d\t" matches "AB3D" as well |
| `LoginSpec.Initial` | src/components/pages/Autenticacion/hooks/useLogin.ts:7-14 | on mount no type is selected, identifier and password are empty, nothing is loading, no message is shown, the input is empty and the challenge is the first generated one |
| `LoginSpec.SubmitOnMountDoesNothing` | src/components/pages/Autenticacion/hooks/useLogin.ts:44 | a submit right after mount, whatever the reply, changes no field, calls nothing and sets no timer, since no type is selected yet |
| `LoginSpec.RefreshOnlyTouchesCaptcha` | src/components/pages/Autenticacion/hooks/useLogin.ts:16-19 | `refreshCaptcha` installs the new challenge, clears the input and changes no other field |
| `LoginSpec.BackUndoesSelect` | src/components/pages/Autenticacion/hooks/useLogin.ts:21-39 | going back after choosing a type gives the same fields as going back directly |
| `LoginSpec.SelectForgetsForm` | src/components/pages/Autenticacion/hooks/useLogin.ts:21-29 | the fields after choosing a type depend only on the type, the new challenge and `loading` |
| `LoginSpec.BeginSubmit` | src/components/pages/Autenticacion/hooks/useLogin.ts:41-57 | with no type selected nothing changes. The service is called iff the guard accepts, with the identifier, password and type; the pending state then has `loading` true and both messages cleared. On rejection only `error` (the fixed message), the challenge and the input change |
| `LoginSpec.CompleteSubmit` | src/components/pages/Autenticacion/hooks/useLogin.ts:57-89 | after the reply, `loading` is false. A timer is set iff the attempt logged in, carrying its session, with the info text set and the challenge kept. Otherwise the error is the attempt's message and a new challenge is issued. The selection and the credentials are unchanged |
| `LoginSpec.Submit` | src/components/pages/Autenticacion/hooks/useLogin.ts:41-90 | the whole submit: a no-op without a type; a call iff the guard accepts; on rejection no call, no timer, `loading` and `infoMessage` untouched; after a call `loading` is false; success means no error, info text, a timer with the session and the same challenge; failure means the message, no info text and a new challenge |
| `LoginSpec.RunStaysIdle` | src/components/pages/Autenticacion/hooks/useLogin.ts:52-89 | starting idle, any sequence of completed handlers ends with `loading` false |
| `LoginSpec.RunTimersWellFormed` | src/components/pages/Autenticacion/hooks/useLogin.ts:57-79 | over any sequence of events there are no more timers than service calls and no more calls than events, and every session handed on has a usable token |
| `LoginSpec.NewChallengeClearsInput` | src/components/pages/Autenticacion/hooks/useLogin.ts:16-39 | on every event, if the challenge changes then the typed input is cleared |
| `LoginSpec.StatusExclusivePreserved` | src/components/pages/Autenticacion/hooks/useLogin.ts:21-89 | every event except a submit rejected by the CAPTCHA guard keeps `error` and `infoMessage` from being shown together |
| `LoginSpec.GuardRejectionKeepsInfo` | src/components/pages/Autenticacion/hooks/useLogin.ts:46-50 | a submit the guard rejects sets the mismatch error, keeps the info text already shown and makes no call, so after a successful login a mistyped challenge shows both |
| `LoginSpec.SuccessExample` | src/components/pages/Autenticacion/hooks/useLogin.ts:59-79 | a reply `{success: true, token, perfil}` with a non-empty token that needs no trimming (such as `"t1"`) sets the success text and a timer for exactly `{token, perfil}` |
| `LoginSpec.MissingTokenExample` | src/components/pages/Autenticacion/hooks/useLogin.ts:70-72 | a successful reply without a token shows the missing-token error and sets no timer |
| `LoginSpec.NetworkDownExample` | src/components/pages/Autenticacion/hooks/useLogin.ts:80-86 | a rejection with `Error("Network down")` shows "Network down" and issues a new challenge |
| `LoginHook.LoginControl.constructor` | src/components/pages/Autenticacion/hooks/useLogin.ts:6-14 | the fields start as `LoginSpec.Initial` with the first generated challenge |
| `LoginHook.LoginControl.SetIdentifier` | src/components/pages/Autenticacion/hooks/useLogin.ts:8 | only `identifier` changes |
| `LoginHook.LoginControl.SetPassword` | src/components/pages/Autenticacion/hooks/useLogin.ts:9 | only `password` changes |
| `LoginHook.LoginControl.SetCaptchaInput` | src/components/pages/Autenticacion/hooks/useLogin.ts:11 | only `captchaInput` changes |
| `LoginHook.LoginControl.RefreshCaptcha` | src/components/pages/Autenticacion/hooks/useLogin.ts:16-19 | the fields become `LoginSpec.RefreshCaptcha` of the old ones: new challenge, empty input, the rest unchanged |
| `LoginHook.LoginControl.HandleSelectType` | src/components/pages/Autenticacion/hooks/useLogin.ts:21-29 | the fields become `LoginSpec.SelectType` of the old ones: the type set, identifier, password, input and both messages cleared, a new challenge, `loading` untouched |
| `LoginHook.LoginControl.HandleBack` | src/components/pages/Autenticacion/hooks/useLogin.ts:31-39 | the same reset with no type selected (`LoginSpec.Back`) |
| `LoginHook.LoginControl.BeginSubmit` | src/components/pages/Autenticacion/hooks/useLogin.ts:41-57 | fields and request are exactly `LoginSpec.BeginSubmit` of the old fields |
| `LoginHook.LoginControl.CompleteSubmit` | src/components/pages/Autenticacion/hooks/useLogin.ts:57-89 | fields and effects are exactly `LoginSpec.CompleteSubmit` of the old fields |
| `LoginHook.LoginControl.HandleSubmit` | src/components/pages/Autenticacion/hooks/useLogin.ts:41-90 | fields and effects are exactly `LoginSpec.Submit` of the old fields |
| `LoginHook.LoginControl.FireTimer` | src/components/pages/Autenticacion/hooks/useLogin.ts:77-79 | when the timer fires, the session is delivered iff an `onLoginSuccess` callback was given |

## Left out

- `handleGoogleSignIn`: it only logs to the console and navigates the browser to `/api/auth/google`; no hook state changes.
- `LoginScreen.tsx`: presentation only (markup, styles, the footer year, the subtitle lookup and the choice of view).
- `generateCaptcha` is random and is not part of this model. Each new challenge is a parameter, and nothing assumes it differs from the previous one.
- `autenticacionService.login`, the network client, is not part of this model. Its result is the `reply` parameter.
- The timer's 1000 ms delay and what happens if the component is torn down before it fires: the model records only the session the timer is set with.
- Re-entrancy: a second submit while one is pending. The hook does not guard against it. `LoginSpec.Run` applies whole submits one after another and never interleaves two; nor does it let any other event (back, an edit, a refresh) happen while a call is pending, although `LoginControl.BeginSubmit` and `LoginControl.CompleteSubmit` allow it. `LoginSpec.RunStaysIdle` and `LoginSpec.RunTimersWellFormed` are therefore about atomic submits only.
- React mechanics: `useState`, `useCallback`, render batching and `event.preventDefault()`. Each handler is a method on the current fields.
- `Text.Upper`: maps only the ASCII letters `a`-`z`. Full Unicode `toUpperCase` also changes other letters, some of them into two characters (`ß` becomes `SS`).
- `Auth.Validate`: the body's members are typed as `success?: boolean`, `message?: string`, `token?: string` and `perfil?: Profile` (each either absent or of that type). JavaScript's truthiness rules for other values of these members are not modelled.
