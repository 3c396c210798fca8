# GoogleAuth (iOS) session and configuration model

A Dafny model of the iOS side of a Capacitor plugin that signs users in with
Google. The `GoogleAuth` plugin object resolves a client id from its static
configuration (`iosClientId`, then `clientId`, then the `CLIENT_ID` of the bundled
`GoogleService-Info.plist`), lets an `initialize` call override it, keeps the list
of scopes to request after sign-in (the configured scopes minus `email`, `profile`
and `openid`, which sign-in grants anyway), and drives sign-in: a silent restore
of the previous session, or an interactive sign-in followed, when scopes remain,
by a scope-escalation request. Results are mapped to a dictionary in which missing
profile fields are an explicit null marker, except the image URL, which is left
out. `refresh`, `signOut` and the redirect hand-off `handleOpenUrl` complete the
surface.

Layout:

- `values.dfy` (`Values`): optionals, JSON-like payloads, call responses, SDK results.
- `error_codes.dfy` (`ErrorCodes`): the decimal code string of a provider error.
- `scopes.dfy` (`Scopes`): the default-granted scopes and the scope filter.
- `configuration.dfy` (`Configuration`): static configuration, `initialize` options,
  client-id resolution.
- `result_mapping.dfy` (`ResultMapping`): SDK user records and the sign-in and
  refresh dictionaries, each with a reader that recovers the reported fields.
- `session.dfy` (`Session`): the sign-in decision tree, refresh, sign-out and the
  redirect hand-off as functions from SDK callback results to the SDK requests
  issued and the call's response.
- `plugin.dfy` (`Plugin`): the `GoogleAuth` class with its four mutable fields.

The identity SDK is not modelled: every completion handler's result (an error or a
user, or for refresh optional tokens and an optional error) is an input, as are the
SDK's state queries (`hasPreviousSignIn()`, `currentUser`, `imageURL(withDimension:)`).
Every request the plugin issues to the SDK is recorded as a `ProviderRequest`. A force-unwrapped `nil`
field of the plugin ends the process; the model records it as the response `Trap`.

Three points where the model follows the code rather than what it says about itself
or what a reader might expect:

- The doc comment of `initialize` (ios/Plugin/Plugin.swift:42-45) says values not
  passed "will remain unchanged". Only the configuration behaves that way, and only
  when neither `clientId` nor `iosClientId` is passed. `forceAuthCode` and the scopes
  are always overwritten, with `false` and the empty list when omitted (lines 61-62).
  A configuration built from a passed client id takes the call's `serverClientId`,
  so an omitted one becomes absent (lines 52-53 and 57-58). `Initialize`'s contract
  states this behaviour.
- An interactive sign-in on a plugin that never resolved a client id does not fail
  with an error. The `nil` configuration traps when it is unwrapped for the SDK call
  (line 81), before the SDK is entered. The silent restore path does not touch the
  configuration and works unconfigured.
- The `idToken` of a sign-in result (line 174) is an optional placed in a Swift
  dictionary without `?? NSNull()`. The dictionary still holds the key, and bridging a
  `nil` optional to Objective-C gives `NSNull`, so the model gives it the null marker,
  as `refresh` does explicitly (line 118). Both results use the one `TokenData`.

## Model

| member | source | states |
|---|---|---|
| `ErrorCodes.Digits` | ios/Plugin/Plugin.swift:83 | the decimal digits of a natural number form a canonical numeral, starting with `0` only for zero |
| `ErrorCodes.CodeString` | ios/Plugin/Plugin.swift:83 | the code string is canonical (no leading zero, no `-0`) and starts with `-` exactly for negative codes |
| `ErrorCodes.DigitsRoundTrip` | ios/Plugin/Plugin.swift:83 | reading the decimal digits of a natural number gives that number back |
| `ErrorCodes.CodeStringRoundTrip` | ios/Plugin/Plugin.swift:83 | the code string of a rejected interactive sign-in parses back to the provider error's code |
| `ErrorCodes.CodeStringInjective` | ios/Plugin/Plugin.swift:83 | distinct provider codes give distinct code strings |
| `ErrorCodes.DigitsUnique` | ios/Plugin/Plugin.swift:83 | a canonical numeral is exactly the digits of the number it denotes |
| `ErrorCodes.CodeStringCanonical` | ios/Plugin/Plugin.swift:83 | any canonical string that reads as a code equals that code's code string, so the text is exactly what `"\(error._code)"` writes (for example `-5`) |
| `Scopes.FilterScopes` | ios/Plugin/Plugin.swift:190-197 | the result is no longer than the input and contains no default-granted scope |
| `Scopes.FilterScopesMembers` | ios/Plugin/Plugin.swift:192-194 | a scope is in the result exactly when it is in the input and not granted by default |
| `Scopes.FilterScopesCons` | ios/Plugin/Plugin.swift:192-194 | one filter step keeps the first scope exactly when it is not granted by default, then filters the rest |
| `Scopes.FilterScopesAppend` | ios/Plugin/Plugin.swift:192-194 | filtering distributes over concatenation, so kept scopes stay in input order |
| `Scopes.FilterScopesIsSubsequence` | ios/Plugin/Plugin.swift:192-194 | the result is a subsequence of the input (order preserved) |
| `Scopes.FilterScopesCount` | ios/Plugin/Plugin.swift:192-194 | every non-default scope keeps all its occurrences (duplicates survive); default scopes occur zero times |
| `Scopes.FilterKeepsClean` | ios/Plugin/Plugin.swift:192-194 | a list without default scopes is left unchanged |
| `Scopes.FilterScopesEmpty` | ios/Plugin/Plugin.swift:190-197 | the filtered list is empty exactly when every input scope is granted by default |
| `Scopes.FilterScopesIdempotent` | ios/Plugin/Plugin.swift:190-197 | filtering twice equals filtering once |
| `Configuration.ResolveClientId` | ios/Plugin/Plugin.swift:148-161 | `iosClientId` wins, then `clientId`, then the plist `CLIENT_ID`; no client id exactly when all three are absent |
| `ResultMapping.SignInData` | ios/Plugin/Plugin.swift:170-188 | `authentication` holds the user's tokens as `TokenData`; the six profile keys are always present (string or null marker); `email` and `name` are null exactly without a profile; `imageUrl` is present exactly when the SDK serves a URL at dimension 100 |
| `ResultMapping.SignInDataReadBack` | ios/Plugin/Plugin.swift:170-188 | reading a sign-in result back gives every reported field of the user, telling a null marker from an omitted image URL |
| `ResultMapping.TokenData` | ios/Plugin/Plugin.swift:116-120 | exactly the keys `accessToken`, `idToken`, `refreshToken`, holding the authentication's tokens; `idToken` is the null marker exactly when absent; reading the dictionary back gives the tokens |
| `Session.SignInFlow` | ios/Plugin/Plugin.swift:69-101 | silent restore exactly when a previous sign-in exists and no auth code is forced; a restore error rejects with the description only and issues nothing else; an interactive error rejects with description and code; scope escalation is requested, with the stored scopes, exactly after a successful interactive sign-in with scopes left; its error rejects without code; the call resolves exactly when every SDK step it went through succeeded, and it resolves with the user of the last SDK step; traps exactly on a missing configuration or missing scopes |
| `Session.SignInRejectionCode` | ios/Plugin/Plugin.swift:72-93 | a rejection carries a code only after a failed interactive sign-in, and that code parses to the provider error's code; the restore path never falls back to interactive sign-in |
| `Session.ConfiguredSignIn` | ios/Plugin/Plugin.swift:79-97 | with a configuration and filtered scopes, sign-in never traps, and an escalation request names a non-empty list without any default-granted scope |
| `Session.EscalationRequested` | ios/Plugin/Plugin.swift:86-98 | with a configuration and filtered scopes, escalation is requested exactly when interactive sign-in was taken and succeeded and some configured scope is not granted by default |
| `Session.Refresh` | ios/Plugin/Plugin.swift:105-123 | no current user: rejects with "User not logged in." and issues no SDK request; otherwise requests tokens once, resolves exactly when tokens arrive, with exactly their `TokenData` dictionary, else rejects with the error's description or "Something went wrong.", never with a code |
| `Session.SignOut` | ios/Plugin/Plugin.swift:127-132 | issues the session clear and resolves with empty data, independently of how the clear ends |
| `Session.HandleOpenUrl` | ios/Plugin/Plugin.swift:135-145 | forwards the URL exactly when the notification carries a dictionary with a URL under `url`; otherwise does nothing |
| `Plugin.GoogleAuth.constructor` | ios/Plugin/Plugin.swift:11-17 | a fresh plugin has no configuration, no scopes, no pending call and `forceAuthCode` false |
| `Plugin.GoogleAuth.GetAdditionalScopes` | ios/Plugin/Plugin.swift:190-197 | stores the filtered scopes in `additionalScopes` and returns them |
| `Plugin.GoogleAuth.Load` | ios/Plugin/Plugin.swift:25-40 | with no resolvable client id nothing changes; otherwise the configuration uses the resolved id and the static `serverClientId`, the scopes are the filtered static scopes (empty when absent) and `forceAuthCode` the static flag (false when absent); keeps the plugin invariant |
| `Plugin.GoogleAuth.Initialize` | ios/Plugin/Plugin.swift:47-64 | `iosClientId` wins over `clientId`; with neither the configuration is unchanged; `forceAuthCode` and the scopes are always overwritten; always resolves with empty data |
| `Plugin.GoogleAuth.SignIn` | ios/Plugin/Plugin.swift:67-102 | the call becomes the sole pending call and receives the sign-in flow's response; a configured plugin never traps |
| `Plugin.StaticConfigurationExample` | ios/Plugin/Plugin.swift:25-37 | loading `{iosClientId: "abc", scopes: ["email", "custom.scope"]}` configures client id `abc` and leaves `["custom.scope"]` to request |

## Left out

- The Capacitor bridge: the call object is reduced to a `CallId` and a `Response`; `getConfigValue` lookups and `call.get…` reads are the `Option` fields of `StaticConfig` and `InitializeOptions` (a value of the wrong type reads as absent).
- `DispatchQueue.main.async`: dispatched work runs as a synchronous step, so the race in which a second `signIn` replaces the pending call before the first completes is not modelled; `SignIn` always settles the call it was given.
- The GoogleSignIn SDK: `hasPreviousSignIn`, `currentUser`, `restorePreviousSignIn`, `signIn(with:presenting:)`, `addScopes`, `authentication.do`, `signOut`, `handle(url)` and `imageURL(withDimension:)` are inputs or recorded requests; their own behaviour is not part of this model.
- A sign-in completion handler that delivers neither a user nor an error would trap at `user!`; the callback type excludes that case.
- `bridge!.viewController!` on the interactive path: the view controller that presents the sign-in is not modelled, nor the trap of a missing bridge.
- Reading `GoogleService-Info.plist` from disk: its `CLIENT_ID` is the input `bundledClientId`.
- `NotificationCenter` observer registration in `load` (line 39) is not modelled. It happens only after a client id resolves, so a plugin whose `load` found no client id never runs `handleOpenUrl`, even after `initialize` supplies one; `Session.HandleOpenUrl` models the handler alone.
- Logging with `NSLog` and `print`, and `getServerClientIdValue`, which nothing calls.
- `Package.swift` is a build manifest and is not part of this model.
