/** Values shared by the whole model: optionals, the JSON-like payloads that cross
    the bridge, and the resolve/reject outcome of a plugin call. */
module Values {

  /** Swift's optional: `nil` is `None`. A configuration value of the wrong type
      (an `as?` cast that fails) is `None` as well. */
  datatype Option<+T> = None | Some(value: T) {
    /** Swift's `?? default`. */
    function GetOr(default: T): T {
      match this
      case Some(v) => v
      case None => default
    }
  }

  /** A value in a payload handed back to the web layer: a string, the explicit
      null marker (`NSNull()`), or a nested dictionary. */
  datatype Json = JString(s: string) | JNull | JObject(fields: map<string, Json>)

  /** Identifies one call object handed in by the bridge. */
  type CallId = nat

  /** How a plugin call ends: `call.resolve(data)`, `call.reject(message[, code])`,
      or a runtime trap (a force-unwrapped `nil`), which ends the process. */
  datatype Response =
    | Resolved(data: map<string, Json>)
    | Rejected(message: string, code: Option<string>)
    | Trap

  /** An error reported by the identity SDK: its `localizedDescription` and `_code`. */
  datatype ProviderError = ProviderError(description: string, code: int)

  /** What an SDK completion handler delivers: an error, or a value. */
  datatype SdkResult<+T> = Failed(error: ProviderError) | Succeeded(value: T)
}
