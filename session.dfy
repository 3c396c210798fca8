/** The session operations: the sign-in decision tree (silent restore, interactive
    sign-in, scope escalation), token refresh, sign-out and the redirect hand-off.
    Each SDK completion handler's result is an input; each operation returns the
    requests it issues to the SDK, in order, and how the plugin call ends. */
module Session {
  import opened Values
  import opened ErrorCodes
  import opened Scopes
  import opened Configuration
  import opened ResultMapping

  /** A request issued to the identity SDK. */
  datatype ProviderRequest =
    | RestorePreviousSignIn
    | InteractiveSignIn(configuration: SignInConfiguration)
    | AddScopes(scopes: seq<string>)
    | RefreshTokens
    | ClearSession
    | HandleUrl(url: string)

  /** The SDK requests an operation issues and the way its plugin call ends. */
  datatype Outcome = Outcome(requests: seq<ProviderRequest>, response: Response)

  /** The results the SDK's completion handlers would deliver for each sign-in step. */
  datatype SignInCallbacks = SignInCallbacks(
    restore: SdkResult<User>,
    interactive: SdkResult<User>,
    addScopes: SdkResult<User>)

  /** The result of `currentUser.authentication.do`: both parts optional. */
  datatype TokenCallback = TokenCallback(authentication: Option<Authentication>, error: Option<ProviderError>)

  /** The payload of a redirect notification's object dictionary. */
  datatype NotificationValue = UrlValue(url: string) | OtherValue

  const NotLoggedInMessage: string := "User not logged in."
  const RefreshFallbackMessage: string := "Something went wrong."

  /** The silent-restore path is taken exactly when the SDK has a previous sign-in
      and no authorization code is forced. */
  predicate TakesRestorePath(hasPreviousSignIn: bool, forceAuthCode: bool) {
    hasPreviousSignIn && !forceAuthCode
  }

  /** The body dispatched by `signIn`. `configuration` and `additionalScopes` are the
      plugin's implicitly unwrapped fields: passing a `nil` configuration to the
      interactive sign-in, or reading the count of `nil` scopes, traps. */
  function SignInFlow(
    hasPreviousSignIn: bool,
    forceAuthCode: bool,
    configuration: Option<SignInConfiguration>,
    additionalScopes: Option<seq<string>>,
    callbacks: SignInCallbacks): (r: Outcome)
    // the path: restore alone, or interactive sign-in optionally followed by scope escalation
    ensures TakesRestorePath(hasPreviousSignIn, forceAuthCode) ==> r.requests == [RestorePreviousSignIn]
    ensures !TakesRestorePath(hasPreviousSignIn, forceAuthCode) && configuration.None? ==>
      r == Outcome([], Trap)
    ensures !TakesRestorePath(hasPreviousSignIn, forceAuthCode) && configuration.Some? ==>
      |r.requests| in {1, 2} && r.requests[0] == InteractiveSignIn(configuration.value)
    // scope escalation only after a successful interactive sign-in with scopes left to request
    ensures |r.requests| == 2 <==>
      !TakesRestorePath(hasPreviousSignIn, forceAuthCode) && configuration.Some? &&
      callbacks.interactive.Succeeded? && additionalScopes.Some? && additionalScopes.value != []
    ensures |r.requests| == 2 ==> r.requests[1] == AddScopes(additionalScopes.value)
    // a restore error rejects with the description only
    ensures TakesRestorePath(hasPreviousSignIn, forceAuthCode) && callbacks.restore.Failed? ==>
      r.response == Rejected(callbacks.restore.error.description, None)
    // an interactive error rejects with the description and the error code
    ensures !TakesRestorePath(hasPreviousSignIn, forceAuthCode) && configuration.Some? && callbacks.interactive.Failed? ==>
      r.response == Rejected(callbacks.interactive.error.description, Some(CodeString(callbacks.interactive.error.code)))
    // a scope-escalation error rejects with the description only
    ensures |r.requests| == 2 && callbacks.addScopes.Failed? ==>
      r.response == Rejected(callbacks.addScopes.error.description, None)
    // the call resolves exactly when every SDK step it went through succeeded
    ensures r.response.Resolved? <==>
      if TakesRestorePath(hasPreviousSignIn, forceAuthCode) then callbacks.restore.Succeeded?
      else (configuration.Some? && callbacks.interactive.Succeeded? && additionalScopes.Some? &&
            (additionalScopes.value == [] || callbacks.addScopes.Succeeded?))
    // nothing but a missing configuration or missing scopes traps
    ensures r.response == Trap <==>
      !TakesRestorePath(hasPreviousSignIn, forceAuthCode) &&
      (configuration.None? || (callbacks.interactive.Succeeded? && additionalScopes.None?))
    // a success resolves with the user delivered by the last SDK step
    ensures TakesRestorePath(hasPreviousSignIn, forceAuthCode) && callbacks.restore.Succeeded? ==>
      r.response == Resolved(SignInData(callbacks.restore.value))
    ensures |r.requests| == 2 && callbacks.addScopes.Succeeded? ==>
      r.response == Resolved(SignInData(callbacks.addScopes.value))
    ensures |r.requests| == 1 && r.requests[0].InteractiveSignIn? && r.response.Resolved? ==>
      r.response == Resolved(SignInData(callbacks.interactive.value))
  {
    if TakesRestorePath(hasPreviousSignIn, forceAuthCode) then
      match callbacks.restore
      case Failed(e) => Outcome([RestorePreviousSignIn], Rejected(e.description, None))
      case Succeeded(user) => Outcome([RestorePreviousSignIn], Resolved(SignInData(user)))
    else if configuration.None? then
      Outcome([], Trap)
    else
      var signIn := InteractiveSignIn(configuration.value);
      match callbacks.interactive
      case Failed(e) => Outcome([signIn], Rejected(e.description, Some(CodeString(e.code))))
      case Succeeded(user) =>
        if additionalScopes.None? then Outcome([signIn], Trap)
        else if |additionalScopes.value| > 0 then
          var escalate := AddScopes(additionalScopes.value);
          match callbacks.addScopes
          case Failed(e) => Outcome([signIn, escalate], Rejected(e.description, None))
          case Succeeded(upgraded) => Outcome([signIn, escalate], Resolved(SignInData(upgraded)))
        else Outcome([signIn], Resolved(SignInData(user)))
  }

  /** Only a failed interactive sign-in carries a code, and the code is the provider
      error's own code; a restore error never falls back to interactive sign-in. */
  lemma SignInRejectionCode(
    hasPreviousSignIn: bool,
    forceAuthCode: bool,
    configuration: Option<SignInConfiguration>,
    additionalScopes: Option<seq<string>>,
    callbacks: SignInCallbacks)
    ensures var r := SignInFlow(hasPreviousSignIn, forceAuthCode, configuration, additionalScopes, callbacks);
      r.response.Rejected? && r.response.code.Some? ==>
        callbacks.interactive.Failed? &&
        r.requests == [InteractiveSignIn(configuration.value)] &&
        ParseCode(r.response.code.value) == Some(callbacks.interactive.error.code)
    ensures var r := SignInFlow(hasPreviousSignIn, forceAuthCode, configuration, additionalScopes, callbacks);
      RestorePreviousSignIn in r.requests ==>
        forall q :: q in r.requests ==> q == RestorePreviousSignIn
  {
    if callbacks.interactive.Failed? {
      CodeStringRoundTrip(callbacks.interactive.error.code);
    }
  }

  /** With the plugin's invariant (a configuration always comes with its filtered
      scopes), sign-in never traps once configured, and scope escalation, when it
      happens, asks for a non-empty list without any scope granted by default. */
  lemma ConfiguredSignIn(
    hasPreviousSignIn: bool,
    forceAuthCode: bool,
    configuration: SignInConfiguration,
    scopes: seq<string>,
    callbacks: SignInCallbacks)
    ensures var r := SignInFlow(hasPreviousSignIn, forceAuthCode, Some(configuration), Some(FilterScopes(scopes)), callbacks);
      r.response != Trap &&
      (|r.requests| == 2 ==> r.requests[1].scopes != [] && NoDefaultScope(r.requests[1].scopes))
  {
  }

  /** Scope escalation follows a successful interactive sign-in exactly when some
      configured scope is not granted by default. */
  lemma EscalationRequested(
    hasPreviousSignIn: bool,
    forceAuthCode: bool,
    configuration: SignInConfiguration,
    scopes: seq<string>,
    callbacks: SignInCallbacks)
    ensures var r := SignInFlow(hasPreviousSignIn, forceAuthCode, Some(configuration), Some(FilterScopes(scopes)), callbacks);
      |r.requests| == 2 <==>
        !TakesRestorePath(hasPreviousSignIn, forceAuthCode) && callbacks.interactive.Succeeded? &&
        exists i :: 0 <= i < |scopes| && !IsDefaultGranted(scopes[i])
  {
    FilterScopesEmpty(scopes);
  }

  /** `refresh`: with no current user, rejects at once without asking the SDK; otherwise
      asks for fresh tokens and resolves with them, or rejects with the error's
      description (a fixed message when the SDK gives no error either). */
  function Refresh(currentUser: Option<User>, callback: TokenCallback): (r: Outcome)
    ensures currentUser.None? ==> r == Outcome([], Rejected(NotLoggedInMessage, None))
    ensures currentUser.Some? ==> r.requests == [RefreshTokens]
    ensures r.response.Resolved? <==> currentUser.Some? && callback.authentication.Some?
    ensures r.response.Resolved? ==> ReadTokenData(r.response.data) == callback.authentication
    ensures r.response.Resolved? ==> r.response.data == TokenData(callback.authentication.value)
    ensures currentUser.Some? && callback.authentication.None? ==>
      r.response == Rejected(if callback.error.Some? then callback.error.value.description else RefreshFallbackMessage, None)
    ensures r.response.Rejected? ==> r.response.code.None?
  {
    if currentUser.None? then Outcome([], Rejected(NotLoggedInMessage, None))
    else if callback.authentication.None? then
      Outcome([RefreshTokens], Rejected(callback.error.GetOr(ProviderError(RefreshFallbackMessage, 0)).description, None))
    else Outcome([RefreshTokens], Resolved(TokenData(callback.authentication.value)))
  }

  /** `signOut`: dispatches the session clear and resolves at once, with no data;
      how the clear ends is not an input, so the response cannot depend on it. */
  function SignOut(): (r: Outcome)
    ensures r.requests == [ClearSession]
    ensures r.response.Resolved? && r.response.data == map[]
  {
    Outcome([ClearSession], Resolved(map[]))
  }

  /** `handleOpenUrl`: forwards the notification's `url` to the SDK, and does nothing
      when the object is not a dictionary or holds no URL under `url`. */
  function HandleOpenUrl(payload: Option<map<string, NotificationValue>>): (r: seq<ProviderRequest>)
    ensures r != [] <==> payload.Some? && "url" in payload.value && payload.value["url"].UrlValue?
    ensures r != [] ==> r == [HandleUrl(payload.value["url"].url)]
  {
    if payload.None? then []
    else if "url" !in payload.value then []
    else match payload.value["url"]
      case UrlValue(url) => [HandleUrl(url)]
      case OtherValue => []
  }
}
