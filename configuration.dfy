/** Where the provider configuration comes from: the static plugin configuration
    read at load, the bundled `GoogleService-Info.plist`, and `initialize` calls. */
module Configuration {
  import opened Values

  /** `GIDConfiguration(clientID:serverClientID:)`. */
  datatype SignInConfiguration = SignInConfiguration(clientId: string, serverClientId: Option<string>)

  /** The static configuration as `getConfigValue` reads it (each entry `None` when
      missing or not of the expected type), and `bundledClientId`, the `CLIENT_ID`
      string of the bundled plist (`None` when the file, its dictionary or the entry
      is missing). */
  datatype StaticConfig = StaticConfig(
    iosClientId: Option<string>,
    clientId: Option<string>,
    serverClientId: Option<string>,
    scopes: Option<seq<string>>,
    forceCodeForRefreshToken: Option<bool>,
    bundledClientId: Option<string>)

  /** The options of an `initialize` call, each `None` when not passed. */
  datatype InitializeOptions = InitializeOptions(
    clientId: Option<string>,
    iosClientId: Option<string>,
    serverClientId: Option<string>,
    scopes: Option<seq<string>>,
    forceCodeForRefreshToken: Option<bool>)

  /** `getClientIdValue`: the first of `iosClientId`, `clientId` and the plist's
      `CLIENT_ID` that is present. */
  function ResolveClientId(config: StaticConfig): (r: Option<string>)
    ensures r.None? <==> config.iosClientId.None? && config.clientId.None? && config.bundledClientId.None?
    ensures config.iosClientId.Some? ==> r == config.iosClientId
    ensures config.iosClientId.None? && config.clientId.Some? ==> r == config.clientId
    ensures config.iosClientId.None? && config.clientId.None? ==> r == config.bundledClientId
  {
    if config.iosClientId.Some? then config.iosClientId
    else if config.clientId.Some? then config.clientId
    else if config.bundledClientId.Some? then config.bundledClientId
    else None
  }
}
