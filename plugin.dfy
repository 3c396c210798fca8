/** The `GoogleAuth` plugin object: its configuration, the forced-auth-code flag,
    the scopes to request after sign-in, and the slot holding the pending sign-in
    call. Dispatch to the main queue is a synchronous step here. */
module Plugin {
  import opened Values
  import opened Scopes
  import opened Configuration
  import opened Session

  class GoogleAuth {
    /** The pending sign-in call, which the sign-in completion handlers settle. */
    var signInCall: Option<CallId>
    /** `googleSignInConfiguration`: `None` until a client id is known. */
    var configuration: Option<SignInConfiguration>
    var forceAuthCode: bool
    /** `None` until scopes are first configured. */
    var additionalScopes: Option<seq<string>>

    /** A configuration always comes with its scopes, and the stored scopes never
        include a scope granted by default. */
    ghost predicate Valid()
      reads this
    {
      (configuration.Some? ==> additionalScopes.Some?) &&
      (additionalScopes.Some? ==> NoDefaultScope(additionalScopes.value))
    }

    /** The plugin before `load`: nothing configured, no pending call. */
    constructor ()
      ensures Valid()
      ensures signInCall == None && configuration == None
      ensures !forceAuthCode && additionalScopes == None
    {
      signInCall := None;
      configuration := None;
      forceAuthCode := false;
      additionalScopes := None;
    }

    /** `getAdditionalScopes`: stores and returns the scopes left after removing the
        default-granted ones. */
    method GetAdditionalScopes(scopes: seq<string>) returns (r: seq<string>)
      modifies this`additionalScopes
      ensures r == FilterScopes(scopes)
      ensures additionalScopes == Some(r)
    {
      r := FilterScopes(scopes);
      additionalScopes := Some(r);
    }

    /** `load`: configures the plugin from the static configuration; leaves it
        untouched when no client id resolves. */
    method Load(config: StaticConfig)
      requires Valid()
      modifies this
      ensures Valid()
      ensures signInCall == old(signInCall)
      ensures ResolveClientId(config).None? ==>
        configuration == old(configuration) && forceAuthCode == old(forceAuthCode) &&
        additionalScopes == old(additionalScopes)
      ensures ResolveClientId(config).Some? ==>
        configuration == Some(SignInConfiguration(ResolveClientId(config).value, config.serverClientId)) &&
        additionalScopes == Some(FilterScopes(config.scopes.GetOr([]))) &&
        forceAuthCode == config.forceCodeForRefreshToken.GetOr(false)
    {
      var clientId := ResolveClientId(config);
      if clientId.None? {
        return;
      }
      configuration := Some(SignInConfiguration(clientId.value, config.serverClientId));
      var scopes := GetAdditionalScopes(config.scopes.GetOr([]));
      additionalScopes := Some(scopes);
      forceAuthCode := config.forceCodeForRefreshToken.GetOr(false);
    }

    /** `initialize`: a passed `iosClientId` wins over a passed `clientId`; with neither,
        the configuration is kept. The flag and the scopes are always overwritten, and
        the call always resolves. */
    method Initialize(options: InitializeOptions) returns (response: Response)
      requires Valid()
      modifies this
      ensures Valid()
      ensures response == Resolved(map[])
      ensures signInCall == old(signInCall)
      ensures options.iosClientId.Some? ==>
        configuration == Some(SignInConfiguration(options.iosClientId.value, options.serverClientId))
      ensures options.iosClientId.None? && options.clientId.Some? ==>
        configuration == Some(SignInConfiguration(options.clientId.value, options.serverClientId))
      ensures options.iosClientId.None? && options.clientId.None? ==>
        configuration == old(configuration)
      ensures forceAuthCode == options.forceCodeForRefreshToken.GetOr(false)
      ensures additionalScopes == Some(FilterScopes(options.scopes.GetOr([])))
    {
      var scopes := options.scopes.GetOr([]);
      if options.clientId.Some? {
        configuration := Some(SignInConfiguration(options.clientId.value, options.serverClientId));
      }
      if options.iosClientId.Some? {
        configuration := Some(SignInConfiguration(options.iosClientId.value, options.serverClientId));
      }
      forceAuthCode := options.forceCodeForRefreshToken.GetOr(false);
      var filtered := GetAdditionalScopes(scopes);
      additionalScopes := Some(filtered);
      response := Resolved(map[]);
    }

    /** `signIn`: makes `call` the pending sign-in call, replacing any earlier one,
        runs the sign-in flow and settles the pending call with its response. */
    method SignIn(call: CallId, hasPreviousSignIn: bool, callbacks: SignInCallbacks)
      returns (recipient: Option<CallId>, outcome: Outcome)
      requires Valid()
      modifies this`signInCall
      ensures Valid()
      ensures signInCall == Some(call) && recipient == Some(call)
      ensures outcome == SignInFlow(hasPreviousSignIn, forceAuthCode, configuration, additionalScopes, callbacks)
      ensures configuration.Some? ==> outcome.response != Trap
    {
      signInCall := Some(call);
      outcome := SignInFlow(hasPreviousSignIn, forceAuthCode, configuration, additionalScopes, callbacks);
      recipient := signInCall;
      if configuration.Some? {
        FilterKeepsClean(additionalScopes.value);
        ConfiguredSignIn(hasPreviousSignIn, forceAuthCode, configuration.value, additionalScopes.value, callbacks);
      }
    }
  }

  /** A static configuration naming an iOS client id and the scopes `email` and
      `custom.scope` configures that client id and leaves `custom.scope` to request. */
  method StaticConfigurationExample() returns (plugin: GoogleAuth)
    ensures plugin.configuration == Some(SignInConfiguration("abc", None))
    ensures plugin.additionalScopes == Some(["custom.scope"])
  {
    plugin := new GoogleAuth();
    var config := StaticConfig(Some("abc"), None, None, Some(["email", "custom.scope"]), None, None);
    plugin.Load(config);
    assert FilterScopes(["email", "custom.scope"]) == ["custom.scope"];
  }
}
