# SwiftfulAuthenticating session coordinator in Dafny

This project models `AuthManager`, the client-side session coordinator of
SwiftfulAuthenticating, together with the pure data it depends on:

- `SignInOption`, with its tag (`stringValue`) and its loggable parameters
  (`eventParameters`);
- the `AuthManager.Event` taxonomy, with its name, parameters and severity;
- `MockAuthService`, the reference provider.

The coordinator is a pure state machine. The state (`AuthManager.Manager`) has four parts:

- the snapshot `auth`;
- whether a logger was injected;
- the listener tasks created so far, indexed by generation. The last one is
  the live `taskListener`, so the generation counter is their number;
- a trace of everything observable the coordinator did, in order. This covers
  every call on the logger (`identifyUser`, `addUserProperties`,
  `trackEvent`) and every listener cancellation and attachment.

Each operation is a function from a state and the provider's reply to a new
state and a returned-or-thrown outcome. The reply is a `ProviderReply`
parameter: a returned value or a thrown `ProviderError`. A value pushed by the
live listener is an explicit step that calls `SetCurrentAuth`. Cancelling a
listener marks its entry `Cancelled`. Attaching one appends a new `Active`
entry.

Modules:

| file | module | models |
|---|---|---|
| models.dfy | `Models` | optional values, loggable maps, `UserAuthInfo`, provider errors, the `(user, isNewUser)` pair |
| sign_in_option.dfy | `SignInOptions` | `SignInOption` and its two projections |
| auth_event.dfy | `AuthEvents` | `AuthManager.Event`: `eventName`, `parameters`, `type` |
| auth_manager.dfy | `AuthManager` | the coordinator's state and operations |
| auth_manager_properties.dfy | `AuthManagerProperties` | event-order, listener and wrapper lemmas |
| mock_auth_service.dfy | `MockAuth` | `MockAuthService` |
| mock_composition.dfy | `MockComposition` | the coordinator driven by the mock provider |

## Model

| member | source | states |
|---|---|---|
| AuthManager.Init | Sources/SwiftfulAuthenticating/AuthManager.swift:12-17 | construction takes the provider's current user as the snapshot and attaches exactly one listener (generation 1, the invariant holds); nothing is logged |
| AuthManager.GetAuthId | Sources/SwiftfulAuthenticating/AuthManager.swift:19-25 | throws `notSignedIn` if and only if there is no snapshot; otherwise returns the snapshot's uid |
| AuthManager.AddAuthListener | Sources/SwiftfulAuthenticating/AuthManager.swift:27-35 | the live handle is cancelled before the next generation is attached (in that order in the trace); the generation grows by one; snapshot and logger untouched; one-live-listener invariant preserved |
| AuthManager.ValidHasExactlyOneListener | Sources/SwiftfulAuthenticating/AuthManager.swift:29-30 | under the invariant the number of live listeners is exactly one |
| AuthManager.SetCurrentAuth | Sources/SwiftfulAuthenticating/AuthManager.swift:37-47 | the snapshot becomes the value; for a user the logger receives identify, high-priority user properties and `Auth_Listener_Success` in that order; for nil only `Auth_Listener_Empty`; without a logger nothing is logged; listeners untouched |
| AuthManager.SignIn | Sources/SwiftfulAuthenticating/AuthManager.swift:82-102 | on provider success it returns exactly the provider's pair and sets the snapshot to its user, and the trace is: start, the snapshot group, success, then re-attach. On failure it rethrows the same error with the snapshot unchanged, and the trace is: start, fail, then re-attach. Both paths bump the generation by exactly one and keep the invariant |
| AuthManager.SignInAnonymouslyAsWritten | Sources/SwiftfulAuthenticating/AuthManager.swift:49-53 | the wrapper as written: the generation grows by one, the invariant and the earlier trace are kept, and with a logger the first effect added is `Auth_SignIn_Start` for `anonymous`. On success it returns the provider's pair, the snapshot is its user, and the trace is the funnel's (start, group, success, re-attach) followed by the user's identify, properties and listener-success calls a second time. On failure it is exactly the funnel's failure step, rethrowing the provider's error |
| AuthManager.SignInAnonymously | Sources/SwiftfulAuthenticating/AuthManager.swift:49-53 | the wrapper without the second snapshot write: enters the funnel with the caller's option: the generation grows by one, the invariant is kept the earlier trace is kept and, with a logger, the first effect added is `Auth_SignIn_Start` for that option; returns the provider's pair with the snapshot set to its user, or rethrows the provider's error with the snapshot unchanged |
| AuthManager.SignInApple | Sources/SwiftfulAuthenticating/AuthManager.swift:56-58 | enters the funnel with the caller's option: the generation grows by one, the invariant is kept the earlier trace is kept and, with a logger, the first effect added is `Auth_SignIn_Start` for that option (`apple`); returns the provider's pair with the snapshot set to its user, or rethrows the provider's error with the snapshot unchanged |
| AuthManager.SignInGoogle | Sources/SwiftfulAuthenticating/AuthManager.swift:61-63 | enters the funnel with the caller's option: the generation grows by one, the invariant is kept the earlier trace is kept and, with a logger, the first effect added is `Auth_SignIn_Start` for that option (`google` with the client ID); returns the provider's pair with the snapshot set to its user, or rethrows the provider's error with the snapshot unchanged |
| AuthManager.SignInEmailLinkStart | Sources/SwiftfulAuthenticating/AuthManager.swift:66-68 | enters the funnel with the caller's option: the generation grows by one, the invariant is kept the earlier trace is kept and, with a logger, the first effect added is `Auth_SignIn_Start` for that option (`emailLink` with the address and link); returns nothing on provider success and rethrows the provider's error otherwise |
| AuthManager.SignInEmailLinkVerify | Sources/SwiftfulAuthenticating/AuthManager.swift:71-73 | enters the funnel with the caller's option: the generation grows by one, the invariant is kept the earlier trace is kept and, with a logger, the first effect added is `Auth_SignIn_Start` for that option (`emailLinkVerify` with the URL); returns the provider's pair with the snapshot set to its user, or rethrows the provider's error with the snapshot unchanged |
| AuthManager.SignInWithEmailPassword | Sources/SwiftfulAuthenticating/AuthManager.swift:77-79 | enters the funnel with the caller's option: the generation grows by one, the invariant is kept the earlier trace is kept and, with a logger, the first effect added is `Auth_SignIn_Start` for that option (`emailPassword` with the address and password); returns the provider's pair with the snapshot set to its user, or rethrows the provider's error with the snapshot unchanged |
| AuthManager.Terminate | Sources/SwiftfulAuthenticating/AuthManager.swift:104-128 | the shared sign-out/delete shape: on success the snapshot is cleared and start then success are logged; on failure the snapshot is unchanged, start then fail are logged and the same error is rethrown; listeners untouched |
| AuthManager.SignOut | Sources/SwiftfulAuthenticating/AuthManager.swift:104-115 | as `Terminate`, with the `Auth_SignOut_*` events |
| AuthManager.DeleteAccount | Sources/SwiftfulAuthenticating/AuthManager.swift:117-128 | as `Terminate`, with the `Auth_DeleteAccount_*` events |
| AuthManager.AllCancelledCountsZero | Sources/SwiftfulAuthenticating/AuthManager.swift:29 | a history of cancelled listeners has none live (induction over the history) |
| AuthManager.EventsAppend | Sources/SwiftfulAuthenticating/AuthManager.swift:83-101 | the events recorded by a concatenated trace are those of each part, in order |
| AuthManagerProperties.SignInEvents | Sources/SwiftfulAuthenticating/AuthManager.swift:82-102 | a sign-in records exactly: start, listener success, sign-in success on provider success; start, sign-in fail on failure; nothing without a logger |
| AuthManagerProperties.SignInReattachesLast | Sources/SwiftfulAuthenticating/AuthManager.swift:85-91 | on both paths every logger call a sign-in adds comes before every listener effect, and the last effect attaches the next generation |
| AuthManagerProperties.TerminateEvents | Sources/SwiftfulAuthenticating/AuthManager.swift:104-128 | sign-out/delete add only logger calls: start then success, or start then fail |
| AuthManagerProperties.SignOutEvents | Sources/SwiftfulAuthenticating/AuthManager.swift:104-115 | sign-out records start then success or fail, never a listener effect; generation unchanged |
| AuthManagerProperties.DeleteAccountEvents | Sources/SwiftfulAuthenticating/AuthManager.swift:117-128 | account deletion records start then success or fail, never a listener effect; generation unchanged |
| AuthManagerProperties.PushedValueEvents | Sources/SwiftfulAuthenticating/AuthManager.swift:30-47 | a pushed value overwrites the snapshot; a pushed user records one listener-success event (info); a pushed nil records only the empty-listener event, a warning; without a logger nothing is recorded |
| AuthManagerProperties.SignInWrappersFunnel | Sources/SwiftfulAuthenticating/AuthManager.swift:56-80 | every public sign-in wrapper enters the funnel with its own option and the caller's data; `signInEmailLink_Start` succeeds iff the provider returned and rethrows its error otherwise |
| AuthManagerProperties.AnonymousSignInAsWrittenLogsTwice | Sources/SwiftfulAuthenticating/AuthManager.swift:50-54 | as written, a successful anonymous sign-in with a logger records the events start, listener success, sign-in success, listener success. It makes the `identifyUser` and `addUserProperties` calls twice each. The last four effects are the attachment of the next listener followed by the user's group again |
| AuthManagerProperties.AnonymousSignInLogsOnce | Sources/SwiftfulAuthenticating/AuthManager.swift:82-102 | through the funnel alone, an anonymous sign-in records start, listener success and sign-in success once each |
| AuthManagerProperties.SignedOutAtConstruction | Sources/SwiftfulAuthenticating/AuthManager.swift:12-25 | built over a provider with no user, the coordinator has no snapshot and `getAuthId` throws `notSignedIn` |
| AuthManagerProperties.EventsOfEmitted | Sources/SwiftfulAuthenticating/AuthManager.swift:6 | with no logger (`logger == nil`) the logger calls add no events; with one, the tracked calls are recorded in order |
| AuthEvents.EventName | Sources/SwiftfulAuthenticating/AuthManager.swift:161-185 | each case has its own entry in the table of twenty names, and no other case shares that name |
| AuthEvents.Parameters | Sources/SwiftfulAuthenticating/AuthManager.swift:187-219 | no parameters exactly for the six payload-free cases. A failure carries the error's parameters, the start event the option's and the listener-success event the user's. The three e-mail-only cases carry exactly `["email": email]`. The two unused successes carry the user's keys plus `is_new_user` and keep the user's value for every other key. Every success with a flag carries `is_new_user` equal to it |
| AuthEvents.Type | Sources/SwiftfulAuthenticating/AuthManager.swift:221-232 | severe exactly for the six failure cases, a warning exactly for `authlistenerEmpty` |
| AuthEvents.EventNameIdentifiesCase | Sources/SwiftfulAuthenticating/AuthManager.swift:161-185 | two events share a name if and only if they are the same case: `eventName` is injective over the twenty cases |
| AuthEvents.SeverityPolicy | Sources/SwiftfulAuthenticating/AuthManager.swift:221-232 | exactly the six failure cases are severe, exactly `authlistenerEmpty` is a warning, all others are info |
| AuthEvents.SeverityFollowsName | Sources/SwiftfulAuthenticating/AuthManager.swift:161-232 | an event is severe iff its name ends in `_Fail`, and a warning iff its name is `Auth_Listener_Empty` |
| AuthEvents.SignInSuccessReportsIsNewUser | Sources/SwiftfulAuthenticating/AuthManager.swift:193-197 | the sign-in success parameters hold `is_new_user` equal to the flag, whatever the merge does |
| AuthEvents.SignInStartCarriesOption | Sources/SwiftfulAuthenticating/AuthManager.swift:191-192 | the start event's parameters are exactly the option's loggable parameters |
| AuthEvents.FailureCarriesErrorParameters | Sources/SwiftfulAuthenticating/AuthManager.swift:198-208 | every failure event's parameters are the error's own parameters |
| AuthEvents.PayloadFreeEventsHaveNoParameters | Sources/SwiftfulAuthenticating/AuthManager.swift:187-219 | exactly the six cases without a payload to log have no parameters |
| SignInOptions.StringValue | Sources/SwiftfulAuthenticating/Models/SignInOption.swift:17-32 | each variant has its own entry in the table of six tags, shared with no other variant, whatever data the option carries |
| SignInOptions.EventParameters | Sources/SwiftfulAuthenticating/Models/SignInOption.swift:34-45 | always holds `sign_in_option` equal to the tag; holds `email` iff the variant is `emailLink` or `emailPassword`, with that address as its value; has no other key, so no password, client ID or URL is ever a key |
| SignInOptions.StringValueIdentifiesVariant | Sources/SwiftfulAuthenticating/Models/SignInOption.swift:17-32 | two options have the same tag iff they are the same variant: six variants, six distinct tags |
| SignInOptions.EventParametersHoldNoSecrets | Sources/SwiftfulAuthenticating/Models/SignInOption.swift:34-45 | every value in the loggable parameters is the tag or the option's e-mail address |
| MockAuth.Init | Sources/SwiftfulAuthenticating/Services/MockAuthService.swift:13-15 | the current user is the one given |
| MockAuth.GetAuthenticatedUser | Sources/SwiftfulAuthenticating/Services/MockAuthService.swift:17-19 | returns the current user |
| MockAuth.GetAfterInit | Sources/SwiftfulAuthenticating/Services/MockAuthService.swift:13-19 | reading the user after construction returns the user given |
| MockAuth.SignIn | Sources/SwiftfulAuthenticating/Services/MockAuthService.swift:39-58 | never throws; returns the mock user with `isNewUser == false`; that user becomes the current user |
| MockAuth.SignInIgnoresOption | Sources/SwiftfulAuthenticating/Services/MockAuthService.swift:40-57 | the outcome is the same for every option |
| MockAuth.SignOut | Sources/SwiftfulAuthenticating/Services/MockAuthService.swift:35-37 | never throws; clears the current user |
| MockAuth.DeleteAccount | Sources/SwiftfulAuthenticating/Services/MockAuthService.swift:60-62 | never throws; clears the current user |
| MockComposition.Start | Sources/SwiftfulAuthenticating/AuthManager.swift:12-17 | a coordinator built over the mock starts with the mock's user as its snapshot and in agreement with the mock |
| MockComposition.SignIn | Sources/SwiftfulAuthenticating/Services/MockAuthService.swift:42-44 | a sign-in through the coordinator against the mock returns `(mock user, false)` and leaves the coordinator's snapshot equal to the mock's current user, whatever either held before |
| MockComposition.SignOut | Sources/SwiftfulAuthenticating/Services/MockAuthService.swift:35-37 | sign-out through the coordinator against the mock succeeds and leaves both signed out |
| MockComposition.DeleteAccount | Sources/SwiftfulAuthenticating/Services/MockAuthService.swift:60-62 | deletion through the coordinator against the mock succeeds and leaves both signed out |
| MockComposition.Deliver | Sources/SwiftfulAuthenticating/Services/MockAuthService.swift:21-29 | the listener delivering the mock's current user brings the coordinator back in agreement with it, without touching a listener |

## Left out

- The `Task`/`AsyncStream` listener loop and the `$currentUser.values` publisher. Asynchronous delivery is not modelled. A delivered value is the explicit step `SetCurrentAuth` (`MockComposition.Deliver` for the mock). Cancellation is atomic, so the brief overlap of an old and a new listener cannot occur in the model.
- `@MainActor`/`@Observable` isolation and `async` suspension: every operation is one atomic sequential step.
- `UserAuthInfo` and `Error.eventParameters` are not part of this model's sources. The snapshot and the provider error carry their loggable parameters as given data.
- `UserAuthInfo.mock(isAnonymous:)` is not part of this model either. The mock's sign-in takes the user it returns as the parameter `mock`.
- The `[String: Any].merge` extension is not part of this model. `AuthEvents.Parameters` takes the merge as a function parameter. Beyond `is_new_user`, nothing is claimed about which side wins on a shared key.
- `[String: Any]` values are limited to strings and booleans (`ParamValue`). Foundation `URL` is a string.
- The unused `signInEmail*` and `signInEmailPassword*` event cases are modelled only through their name, parameters and severity. The coordinator never emits them.
- `MockAuthService.removeAuthenticatedUserListener` has an empty body and is never called by the coordinator.
- Real provider integrations and the delivery of logged events to an analytics backend.

## Findings

| source | as written | input that shows it | evidently intended | confidence | as-written member | corrected member |
|---|---|---|---|---|---|---|
| Sources/SwiftfulAuthenticating/AuthManager.swift:50-54 | `signInAnonymously` calls `setCurrentAuth` again after the funnel has already done so | a logger is present and the provider returns user `u` for an anonymous sign-in: the recorded events are `Auth_SignIn_Start`, `Auth_Listener_Success(u)`, `Auth_SignIn_Success`, `Auth_Listener_Success(u)`, and `identifyUser`/`addUserProperties` are logged twice | like every other wrapper, call only the funnel, so each transition is logged once | medium, not executed | AuthManager.SignInAnonymouslyAsWritten (lemma AuthManagerProperties.AnonymousSignInAsWrittenLogsTwice) | AuthManager.SignInAnonymously (lemma AuthManagerProperties.AnonymousSignInLogsOnce) |
