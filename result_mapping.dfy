/** The records a successful sign-in or refresh hands back: the provider's user is
    mapped to a dictionary in which missing profile fields are an explicit null
    marker, except the image URL, which is left out when there is none. */
module ResultMapping {
  import opened Values

  /** The square size, in points, at which the profile image URL is requested. */
  const ImageDimension: nat := 100

  /** `GIDAuthentication`: the access and refresh tokens are always present. */
  datatype Authentication = Authentication(accessToken: string, idToken: Option<string>, refreshToken: string)

  /** `GIDProfileData`. `imageUrls` is the URL the SDK gives for each dimension it
      can serve (empty when the user has no image). */
  datatype Profile = Profile(
    email: string,
    name: string,
    givenName: Option<string>,
    familyName: Option<string>,
    imageUrls: map<nat, string>)

  /** `GIDGoogleUser`. */
  datatype User = User(
    authentication: Authentication,
    serverAuthCode: Option<string>,
    userId: Option<string>,
    profile: Option<Profile>)

  /** What a sign-in reports about a user, field by field. */
  datatype SessionResult = SessionResult(
    accessToken: string,
    idToken: Option<string>,
    refreshToken: string,
    serverAuthCode: Option<string>,
    email: Option<string>,
    familyName: Option<string>,
    givenName: Option<string>,
    id: Option<string>,
    name: Option<string>,
    imageUrl: Option<string>)

  /** `user.profile?.imageURL(withDimension: 100)?.absoluteString`. */
  function ImageUrl(user: User): Option<string> {
    if user.profile.Some? && ImageDimension in user.profile.value.imageUrls
    then Some(user.profile.value.imageUrls[ImageDimension])
    else None
  }

  /** The fields of `user` a sign-in reports, each absent when the user or its
      profile does not have it. */
  function ReportedFields(user: User): SessionResult {
    var p := user.profile;
    SessionResult(
      user.authentication.accessToken,
      user.authentication.idToken,
      user.authentication.refreshToken,
      user.serverAuthCode,
      if p.Some? then Some(p.value.email) else None,
      if p.Some? then p.value.familyName else None,
      if p.Some? then p.value.givenName else None,
      user.userId,
      if p.Some? then Some(p.value.name) else None,
      ImageUrl(user))
  }

  /** `value ?? NSNull()`. */
  function OrNull(value: Option<string>): Json {
    if value.Some? then JString(value.value) else JNull
  }

  /** Reads a field written by `OrNull` back; `None` when it is neither a string
      nor the null marker. */
  function ReadNullable(field: Json): Option<Option<string>> {
    match field
    case JString(s) => Some(Some(s))
    case JNull => Some(None)
    case JObject(_) => None
  }

  /** The keys that are always present in a sign-in result, carrying the null marker
      when the user lacks the field. */
  const NullMarkedKeys: set<string> := {"serverAuthCode", "email", "familyName", "givenName", "id", "name"}

  /** `resolveSignInCallWith`: the dictionary a sign-in resolves with. */
  function SignInData(user: User): (r: map<string, Json>)
    ensures forall k :: k in NullMarkedKeys ==> k in r && (r[k].JString? || r[k].JNull?)
    ensures "authentication" in r && r["authentication"] == JObject(TokenData(user.authentication))
    ensures "imageUrl" in r <==> ImageUrl(user).Some?
    ensures r.Keys == NullMarkedKeys + {"authentication"} + (if ImageUrl(user).Some? then {"imageUrl"} else {})
    ensures r["email"] == JNull <==> user.profile.None?
    ensures r["name"] == JNull <==> user.profile.None?
  {
    var s := ReportedFields(user);
    var data := map[
      "authentication" := JObject(TokenData(user.authentication)),
      "serverAuthCode" := OrNull(s.serverAuthCode),
      "email" := OrNull(s.email),
      "familyName" := OrNull(s.familyName),
      "givenName" := OrNull(s.givenName),
      "id" := OrNull(s.id),
      "name" := OrNull(s.name)];
    if s.imageUrl.Some? then data["imageUrl" := JString(s.imageUrl.value)] else data
  }

  /** Nothing a sign-in reports is lost: reading its dictionary back gives every
      reported field of the user, null markers and the missing image included. */
  lemma SignInDataReadBack(user: User)
    ensures ReadSignInData(SignInData(user)) == Some(ReportedFields(user))
  {
    var data := SignInData(user);
    var f := ReportedFields(user);
    assert data["authentication"].fields == TokenData(user.authentication);
    assert ReadNullable(data["serverAuthCode"]) == Some(f.serverAuthCode);
    assert ReadNullable(data["email"]) == Some(f.email);
    assert ReadNullable(data["familyName"]) == Some(f.familyName);
    assert ReadNullable(data["givenName"]) == Some(f.givenName);
    assert ReadNullable(data["id"]) == Some(f.id);
    assert ReadNullable(data["name"]) == Some(f.name);
  }

  /** Reads a sign-in result back into the fields it reports; `None` when a key is
      missing or of the wrong shape. */
  function ReadSignInData(data: map<string, Json>): Option<SessionResult> {
    if !("authentication" in data && data["authentication"].JObject?) then None
    else
      var auth := ReadTokenData(data["authentication"].fields);
      if auth.None? then None
      else if !(NullMarkedKeys <= data.Keys) then None
      else if "imageUrl" in data && !data["imageUrl"].JString? then None
      else
        var serverAuthCode := ReadNullable(data["serverAuthCode"]);
        var email := ReadNullable(data["email"]);
        var familyName := ReadNullable(data["familyName"]);
        var givenName := ReadNullable(data["givenName"]);
        var id := ReadNullable(data["id"]);
        var name := ReadNullable(data["name"]);
        if serverAuthCode.None? || email.None? || familyName.None? || givenName.None? || id.None? || name.None? then None
        else Some(SessionResult(
          auth.value.accessToken,
          auth.value.idToken,
          auth.value.refreshToken,
          serverAuthCode.value,
          email.value,
          familyName.value,
          givenName.value,
          id.value,
          name.value,
          if "imageUrl" in data then Some(data["imageUrl"].s) else None))
  }

  /** The tokens of an authentication as a dictionary: the `authentication` entry of
      a sign-in result and the whole result of a successful `refresh`. All three keys
      are always present; a missing `idToken` is the null marker (written as
      `?? NSNull()` by `refresh`, and bridged from a `nil` optional by sign-in). */
  function TokenData(auth: Authentication): (r: map<string, Json>)
    ensures r.Keys == {"accessToken", "idToken", "refreshToken"}
    ensures r["accessToken"] == JString(auth.accessToken)
    ensures r["refreshToken"] == JString(auth.refreshToken)
    ensures r["idToken"] == JNull <==> auth.idToken.None?
    ensures auth.idToken.Some? ==> r["idToken"] == JString(auth.idToken.value)
    ensures ReadTokenData(r) == Some(auth)
  {
    map[
      "accessToken" := JString(auth.accessToken),
      "idToken" := OrNull(auth.idToken),
      "refreshToken" := JString(auth.refreshToken)]
  }

  /** Reads a token dictionary back into the tokens it reports. */
  function ReadTokenData(data: map<string, Json>): Option<Authentication> {
    if "accessToken" in data && data["accessToken"].JString? &&
       "refreshToken" in data && data["refreshToken"].JString? &&
       "idToken" in data && ReadNullable(data["idToken"]).Some?
    then Some(Authentication(data["accessToken"].s, ReadNullable(data["idToken"]).value, data["refreshToken"].s))
    else None
  }
}
