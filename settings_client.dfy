/**
 * `SettingsClient`: reading and updating the server settings, the S3 and
 * e-mail tests, and the Sign in with Apple client secret.
 */
module SettingsClient {
  import opened Wrappers
  import opened Values
  import opened Text
  import Options
  import Extensions

  const SettingsPath := "api/settings"

  /** The longest lifetime of a client secret `CreateClientSecret` signs, in seconds (about six months). */
  const MaxSecretDuration := 15777000

  /** `ClientSecretConfigRequest`. */
  datatype ClientSecretConfig = ClientSecretConfig(
    clientId: Option<string>, teamId: Option<string>, keyId: Option<string>, privateKey: Option<string>, duration: int)

  /** `Result.Ok(true)` on success, the response's errors otherwise. */
  function AsFlag(response: Response<()>): (r: Response<bool>)
    ensures response.Ok? <==> r == Ok(true)
    ensures response.Fail? ==> r == Fail(response.errors)
  {
    if response.Ok? then Ok(true) else Fail(response.errors)
  }

  /** A string as a JSON value of an anonymous object: null stays null. */
  function JsonString(s: Option<string>): (r: Json)
    ensures s.None? <==> r == JNull
    ensures s.Some? ==> r == JString(s.value)
  {
    if s.Some? then JString(s.value) else JNull
  }

  /** `GetListAsync`. */
  function GetList(): (r: Request)
    ensures r.verb == Get && r.path == SettingsPath && r.body.None? && r.query.None?
  {
    Request(Get, SettingsPath, None, None)
  }

  /** `UpdateAsync`: a null settings object throws; any other is PATCHed as it is. */
  function Update(settings: Option<Body>): (r: Call<()>)
    ensures settings.None? <==> r == Throws(ArgumentNull("settings"))
    ensures settings.Some? ==> r == Sends(Request(Patch, SettingsPath, settings, None))
  {
    if settings.None? then Throws(ArgumentNull("settings"))
    else Sends(Request(Patch, SettingsPath, settings, None))
  }

  /** `TestS3Async`'s request: the file system in the path, the options' query copy when options are given. */
  function TestS3(fileSystem: string, options: Options.SendOptions?): (r: Request)
    reads options, if options != null && options.query != null then {options.query} else {}
    ensures r.verb == Post && r.path == "api/settings/test-s3/" + fileSystem && r.body.None?
    ensures r.query.None? <==> options == null
    ensures options != null ==> r.query == Some(Extensions.ToDictionary(options))
  {
    Request(Post, "api/settings/test-s3/" + fileSystem, None, Extensions.OptionalDictionary(options))
  }

  const DefaultFileSystem := "storage"

  /** The checks of `TestEmailAsync`, in order: a blank recipient, then a blank template; the collection is not checked. */
  function TestEmailArguments(toEmail: Option<string>, emailTemplate: Option<string>): (r: Option<Exn>)
    ensures IsNullOrWhiteSpace(toEmail) ==> r == Some(Argument("Recipient email is required.", "toEmail"))
    ensures !IsNullOrWhiteSpace(toEmail) && IsNullOrWhiteSpace(emailTemplate) ==> r == Some(Argument("Email template is required.", "emailTemplate"))
    ensures r.None? <==> !IsNullOrWhiteSpace(toEmail) && !IsNullOrWhiteSpace(emailTemplate)
  {
    RequiredPair(toEmail, "Recipient email is required.", "toEmail", emailTemplate, "Email template is required.", "emailTemplate")
  }

  /** `TestEmailAsync`: the checks, then a POST of the collection, recipient and template. */
  function TestEmail(collectionIdOrName: Option<string>, toEmail: Option<string>, emailTemplate: Option<string>,
                     options: Options.SendOptions?): (r: Call<bool>)
    reads options, if options != null && options.query != null then {options.query} else {}
    ensures TestEmailArguments(toEmail, emailTemplate).Some? ==> r == Throws(TestEmailArguments(toEmail, emailTemplate).value)
    ensures TestEmailArguments(toEmail, emailTemplate).None? ==>
      r == Sends(Request(Post, "api/settings/test/email",
        Some(ObjectBody(map["collection" := JsonString(collectionIdOrName), "email" := JString(toEmail.value),
                            "template" := JString(emailTemplate.value)])),
        Extensions.OptionalDictionary(options)))
  {
    var bad := TestEmailArguments(toEmail, emailTemplate);
    if bad.Some? then Throws(bad.value)
    else Sends(Request(Post, "api/settings/test/email",
      Some(ObjectBody(map["collection" := JsonString(collectionIdOrName), "email" := JString(toEmail.value),
                          "template" := JString(emailTemplate.value)])),
      Extensions.OptionalDictionary(options)))
  }

  /**
   * The field checks both secret operations share, in order: ClientId,
   * TeamId, KeyId and PrivateKey not blank, then a positive duration. The
   * messages and parameter names are those of the operation.
   */
  function SecretFieldCheck(config: ClientSecretConfig, messages: seq<string>, named: bool): (r: Option<Exn>)
    requires |messages| == 5
    ensures r.None? <==>
      !IsNullOrWhiteSpace(config.clientId) && !IsNullOrWhiteSpace(config.teamId) && !IsNullOrWhiteSpace(config.keyId)
      && !IsNullOrWhiteSpace(config.privateKey) && config.duration > 0
    ensures IsNullOrWhiteSpace(config.clientId) ==> r == Some(Argument(messages[0], if named then "ClientId" else ""))
    ensures r.Some? ==> r.value.Argument? && r.value.message in messages
  {
    if IsNullOrWhiteSpace(config.clientId) then Some(Argument(messages[0], if named then "ClientId" else ""))
    else if IsNullOrWhiteSpace(config.teamId) then Some(Argument(messages[1], if named then "TeamId" else ""))
    else if IsNullOrWhiteSpace(config.keyId) then Some(Argument(messages[2], if named then "KeyId" else ""))
    else if IsNullOrWhiteSpace(config.privateKey) then Some(Argument(messages[3], if named then "PrivateKey" else ""))
    else if config.duration <= 0 then Some(Argument(messages[4], if named then "Duration" else ""))
    else None
  }

  const GenerateMessages := ["ClientId is required.", "TeamId is required.", "KeyId is required.", "PrivateKey is required.", "Duration must be positive."]
  const CreateMessages := ["ClientId is required", "TeamId is required", "KeyId is required", "PrivateKey is required", "ExpiresIn must be positive"]
  const TooLongMessage := "ExpiresIn cannot exceed 15777000 seconds (~6 months)"

  /**
   * `GenerateAppleClientSecretAsync`: a null request is dereferenced and
   * throws; then the field checks; any positive duration is sent, with no
   * upper bound.
   */
  function GenerateAppleClientSecret(config: Option<ClientSecretConfig>, options: Options.SendOptions?): (r: Call<()>)
    reads options, if options != null && options.query != null then {options.query} else {}
    ensures config.None? ==> r == Throws(NullReference)
    ensures config.Some? && SecretFieldCheck(config.value, GenerateMessages, true).Some? ==>
      r == Throws(SecretFieldCheck(config.value, GenerateMessages, true).value)
    ensures config.Some? && SecretFieldCheck(config.value, GenerateMessages, true).None? ==>
      r.Sends? && r.request.path == "api/settings/apple/generate-client-secret" && r.request.verb == Post
      && r.request.body == Some(ObjectBody(map[
           "clientId" := JString(config.value.clientId.value), "teamId" := JString(config.value.teamId.value),
           "keyId" := JString(config.value.keyId.value), "privateKey" := JString(config.value.privateKey.value),
           "duration" := JNumber(config.value.duration)]))
      && r.request.query == Extensions.OptionalDictionary(options)
  {
    if config.None? then Throws(NullReference)
    else
      var c := config.value;
      var bad := SecretFieldCheck(c, GenerateMessages, true);
      if bad.Some? then Throws(bad.value)
      else Sends(Request(Post, "api/settings/apple/generate-client-secret",
        Some(ObjectBody(map["clientId" := JString(c.clientId.value), "teamId" := JString(c.teamId.value),
                            "keyId" := JString(c.keyId.value), "privateKey" := JString(c.privateKey.value),
                            "duration" := JNumber(c.duration)])),
        Extensions.OptionalDictionary(options)))
  }

  /** Every positive duration passes the request checks, however long. */
  lemma GenerateHasNoUpperBound(config: ClientSecretConfig, options: Options.SendOptions?)
    requires !IsNullOrWhiteSpace(config.clientId) && !IsNullOrWhiteSpace(config.teamId)
    requires !IsNullOrWhiteSpace(config.keyId) && !IsNullOrWhiteSpace(config.privateKey)
    requires config.duration > MaxSecretDuration
    ensures GenerateAppleClientSecret(Some(config), options).Sends?
    ensures CreateClientSecret(Some(config), c => "").Failure?
  {
  }

  /**
   * `CreateClientSecret`: a null config throws `ArgumentNullException`, then
   * the field checks (messages without parameter names), then a duration
   * over 15777000 seconds; a valid config is signed by `sign` (the ES256 JWT
   * signed with the private key).
   */
  function CreateClientSecret(config: Option<ClientSecretConfig>, sign: ClientSecretConfig -> string): (r: Result<string, Exn>)
    ensures config.None? ==> r == Failure(ArgumentNull("config"))
    ensures r.Success? <==>
      config.Some? && SecretFieldCheck(config.value, CreateMessages, false).None? && config.value.duration <= MaxSecretDuration
    ensures r.Success? ==> r.value == sign(config.value)
    ensures config.Some? && SecretFieldCheck(config.value, CreateMessages, false).None? && config.value.duration > MaxSecretDuration ==>
      r == Failure(Argument(TooLongMessage, ""))
  {
    if config.None? then Failure(ArgumentNull("config"))
    else
      var bad := SecretFieldCheck(config.value, CreateMessages, false);
      if bad.Some? then Failure(bad.value)
      else if config.value.duration > MaxSecretDuration then Failure(Argument(TooLongMessage, ""))
      else Success(sign(config.value))
  }

  /** The two operations accept the same configs up to the duration bound of `CreateClientSecret`. */
  lemma SecretChecksAgree(config: ClientSecretConfig, options: Options.SendOptions?, sign: ClientSecretConfig -> string)
    requires config.duration <= MaxSecretDuration
    ensures GenerateAppleClientSecret(Some(config), options).Sends? <==> CreateClientSecret(Some(config), sign).Success?
  {
  }
}
